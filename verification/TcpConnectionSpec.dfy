/** One connection (src/net/TcpConnection.cpp) on values: its handlers as functions, and what
    they keep over every run. */
module ConnSpec {
  import opened Text
  import opened Buffers
  import opened ChannelSpec

  datatype ConnState = Connecting | Connected | Disconnecting | Disconnected

  /** What has happened on a connection: callbacks (`Message` with the bytes just read), what the user took from
      the input buffer, socket writes and the half-close, and every message given to `send`, with whether it was
      taken. */
  datatype Event = Up | Message(bytes: string) | Took(bytes: string) | Down | Wrote(bytes: string) | HalfClosed
                 | Sent(message: string, kept: bool)

  /** A user callback queued on the loop. */
  datatype Notice = WriteComplete | HighWater(size: nat)

  /** The result of a `write`: a count, or an errno. */
  datatype WriteResult = Accepted(n: nat) | WouldBlock | PeerGone | OtherError

  /** Which optional callbacks are set, and the high-water mark. */
  datatype Config = Config(writeComplete: bool, highWater: bool, mark: nat)

  datatype Conn = Conn(config: Config, state: ConnState, chan: Chan, tied: bool, input: string,
                       output: string, trace: seq<Event>)
  {
    predicate Open() { state.Connected? || state.Disconnecting? }
  }

  function FreshConn(config: Config): Conn {
    Conn(config, Connecting, FRESH_CHAN, false, "", "", [])
  }

  // The handlers

  predicate Possible(w: WriteResult, len: nat) { w.Accepted? ==> w.n <= len }

  /** A message is written directly when nothing is queued before it. */
  predicate Direct(c: Conn) { !c.chan.IsWriting() && c.output == "" }

  /** How much of a message a direct write takes. */
  function Taken(c: Conn, w: WriteResult): nat {
    if Direct(c) && w.Accepted? then w.n else 0
  }

  predicate PeerFoundGone(c: Conn, w: WriteResult) { Direct(c) && w.PeerGone? }

  function Completion(c: Conn, len: nat, w: WriteResult): seq<Notice> {
    if Direct(c) && w == Accepted(len) && c.config.writeComplete then [WriteComplete] else []
  }

  /** `rest` is queued, and the connection waits to write. */
  function Enqueued(c: Conn, rest: string): Conn {
    c.(output := c.output + rest, chan := if c.chan.IsWriting() then c.chan else EnableWriting(c.chan))
  }

  function Crossing(c: Conn, more: nat): seq<Notice> {
    var size := |c.output| + more;
    if size >= c.config.mark && |c.output| < c.config.mark && c.config.highWater then [HighWater(size)] else []
  }

  /** Writes directly when nothing is queued, and queues what the socket did not take. */
  function SendInLoop(c: Conn, message: string, w: WriteResult): (Conn, seq<Notice>)
    requires Possible(w, |message|)
  {
    if c.state.Disconnected? then
      (c.(trace := c.trace + [Sent(message, false)]), [])
    else
      var nwrote := Taken(c, w);
      var error := PeerFoundGone(c, w);
      var c1 := c.(trace := c.trace + [Sent(message, !error)]
                            + if nwrote > 0 then [Wrote(message[..nwrote])] else []);
      var complete := Completion(c, |message|, w);
      if error || nwrote == |message| then (c1, complete)
      else (Enqueued(c1, message[nwrote..]), complete + Crossing(c, |message| - nwrote))
  }

  function Send(c: Conn, message: string, w: WriteResult): (Conn, seq<Notice>)
    requires Possible(w, |message|)
  {
    if c.state.Connected? then SendInLoop(c, message, w)
    else (c.(trace := c.trace + [Sent(message, false)]), [])
  }

  function ShutdownInLoop(c: Conn): Conn {
    if !c.chan.IsWriting() then c.(trace := c.trace + [HalfClosed]) else c
  }

  function Shutdown(c: Conn): Conn {
    if c.state.Connected? then ShutdownInLoop(c.(state := Disconnecting)) else c
  }

  function ConnectEstablished(c: Conn): Conn {
    c.(state := Connected, tied := true, chan := EnableReading(c.chan), trace := c.trace + [Up])
  }

  function ConnectDestroyed(c: Conn): Conn {
    var c' := if c.state.Connected?
              then c.(state := Disconnected, chan := DisableAll(c.chan), trace := c.trace + [Down])
              else c;
    c'.(chan := Removed(c'.chan))
  }

  /** Up to the close callback, which is the server's. */
  function HandleClose(c: Conn): Conn {
    c.(state := Disconnected, chan := DisableAll(c.chan), trace := c.trace + [Down])
  }

  /** Reading nothing is the end of the stream. */
  function HandleRead(c: Conn, r: ReadResult): Conn {
    match r
    case Got(bytes) => if bytes == "" then HandleClose(c)
                       else c.(input := c.input + bytes, trace := c.trace + [Message(bytes)])
    case Failed => c
  }

  /** The user takes up to `n` bytes from the input buffer. */
  function Retrieved(c: Conn, n: nat): Conn {
    var rest := Drop(c.input, n);
    var bytes := c.input[..|c.input| - |rest|];
    c.(input := rest, trace := c.trace + if bytes == "" then [] else [Took(bytes)])
  }

  function HandleWrite(c: Conn, w: WriteResult): (Conn, seq<Notice>)
    requires Possible(w, |c.output|)
  {
    if c.chan.IsWriting() && w.Accepted? && w.n > 0 then
      var rest := Drop(c.output, w.n);
      var c1 := c.(output := rest, trace := c.trace + [Wrote(c.output[..w.n])]);
      if rest == "" then
        var c2 := c1.(chan := DisableWriting(c1.chan));
        (if c.state.Disconnecting? then ShutdownInLoop(c2) else c2,
         if c.config.writeComplete then [WriteComplete] else [])
      else (c1, [])
    else (c, [])
  }

  // The order in which one poll result is dispatched

  predicate ClosesFirst(re: Revents) { re.hup && !re.epollin }

  predicate Reads(re: Revents) { re.epollin || re.pri }

  /** `handleEventWithGuard`: hang-up, error, input, output. */
  function Dispatch(c: Conn, re: Revents, r: ReadResult, w: WriteResult): (Conn, seq<Notice>)
    requires Possible(w, |c.output|)
  {
    var c1 := if ClosesFirst(re) then HandleClose(c) else c;
    var c2 := if Reads(re) then HandleRead(c1, r) else c1;
    if re.out then HandleWrite(c2, w) else (c2, [])
  }

  // What a history must look like

  /** The bytes the socket has taken. */
  function Wire(t: seq<Event>): string {
    if t == [] then ""
    else
      var e := t[|t| - 1];
      Wire(t[..|t| - 1]) + if e.Wrote? then e.bytes else ""
  }

  /** The messages that were taken, in order. */
  function Kept(t: seq<Event>): string {
    if t == [] then ""
    else
      var e := t[|t| - 1];
      Kept(t[..|t| - 1]) + if e.Sent? && e.kept then e.message else ""
  }

  /** The bytes read from the socket. */
  function Received(t: seq<Event>): string {
    if t == [] then ""
    else
      var e := t[|t| - 1];
      Received(t[..|t| - 1]) + if e.Message? then e.bytes else ""
  }

  /** The bytes the user has taken from the input buffer. */
  function Consumed(t: seq<Event>): string {
    if t == [] then ""
    else
      var e := t[|t| - 1];
      Consumed(t[..|t| - 1]) + if e.Took? then e.bytes else ""
  }

  predicate Dropped(e: Event) { e.Sent? && !e.kept }

  /** The order of a connection's events that every run keeps: what may come after `h`. */
  ghost predicate MayFollow(h: seq<Event>, e: Event) {
    match e
    case Up => forall x | x in h :: Dropped(x)
    case Message(_) => Up in h
    case Took(_) => Up in h
    case Down => Up in h
    case Wrote(_) => Up in h && Down !in h && HalfClosed !in h
    case HalfClosed => Up in h && Down !in h && HalfClosed !in h && Wire(h) == Kept(h)
    case Sent(_, kept) => kept ==> Up in h && Down !in h && HalfClosed !in h
  }

  ghost predicate Graceful(t: seq<Event>) {
    t == [] || (Graceful(t[..|t| - 1]) && MayFollow(t[..|t| - 1], t[|t| - 1]))
  }

  /** The user is told nothing after DOWN. */
  predicate Told(e: Event) { e.Message? || e.Down? }

  ghost predicate Paired(t: seq<Event>) {
    t == [] || (Paired(t[..|t| - 1]) && (Told(t[|t| - 1]) ==> Down !in t[..|t| - 1]))
  }

  ghost predicate Legal(t: seq<Event>) { Graceful(t) && Paired(t) }

  lemma {:induction false} GracefulEverywhere(t: seq<Event>, i: nat)
    requires Graceful(t) && i < |t|
    ensures MayFollow(t[..i], t[i])
    decreases |t|
  {
    if i == |t| - 1 {
    } else {
      GracefulEverywhere(t[..|t| - 1], i);
      assert t[..|t| - 1][..i] == t[..i];
    }
  }

  lemma {:induction false} PairedEverywhere(t: seq<Event>, i: nat)
    requires Paired(t) && i < |t|
    ensures Told(t[i]) ==> Down !in t[..i]
    decreases |t|
  {
    if i == |t| - 1 {
    } else {
      PairedEverywhere(t[..|t| - 1], i);
      assert t[..|t| - 1][..i] == t[..i];
    }
  }

  /** In a graceful history UP comes before everything but refused sends. */
  lemma UpComesFirst(t: seq<Event>, j: nat)
    requires Graceful(t) && j < |t|
    ensures !Dropped(t[j]) && t[j] != Up ==> Up in t[..j]
  {
    GracefulEverywhere(t, j);
  }

  /** Callback pairing, read off a legal history: one UP (before everything but refused sends, by `UpComesFirst`),
      at most one DOWN, and after it nothing but refused sends and the user's own reading of the input buffer. */
  lemma {:induction false} CallbacksPair(t: seq<Event>, i: nat, j: nat)
    requires Legal(t) && i < j < |t|
    ensures t[j] == Up ==> Dropped(t[i])
    ensures t[i] == Down ==> Dropped(t[j]) || t[j].Took?
    ensures !Dropped(t[j]) && t[j] != Up ==> Up in t[..j]
  {
    GracefulEverywhere(t, j);
    PairedEverywhere(t, j);
    assert t[..j][i] == t[i];
    if t[i] == Down {
      GracefulEverywhere(t, i);
      var k :| 0 <= k < i && t[..i][k] == Up;
      assert t[..j][i] == Down;
    }
  }

  /** In a graceful history the half-close comes when every byte taken from the user has reached the socket. */
  lemma HalfCloseIsFlushed(t: seq<Event>, i: nat)
    requires Graceful(t) && i < |t| && t[i] == HalfClosed
    ensures Wire(t[..i]) == Kept(t[..i])
  {
    GracefulEverywhere(t, i);
  }

  /** Half-close, read off a graceful history: at most once, when every byte taken from the user has
      reached the socket, and no byte is written after it. */
  lemma {:induction false} HalfCloseIsGraceful(t: seq<Event>, i: nat, j: nat)
    requires Graceful(t) && i < j < |t| && t[i] == HalfClosed
    ensures t[j] != HalfClosed && !t[j].Wrote?
    ensures Wire(t[..i]) == Kept(t[..i])
  {
    GracefulEverywhere(t, j);
    GracefulEverywhere(t, i);
    assert t[..j][i] == t[i];
  }

  /** After DOWN nothing is written, half-closed or taken from the user, and there is no second UP,
      in any graceful history. */
  lemma {:induction false} DownEndsOutput(t: seq<Event>, i: nat, j: nat)
    requires Graceful(t) && i < j < |t| && t[i] == Down
    ensures Dropped(t[j]) || Told(t[j]) || t[j].Took?
  {
    GracefulEverywhere(t, j);
    assert t[..j][i] == Down && Down in t[..j] && !Dropped(Down);
  }

  // The invariant

  /** What every run keeps.  A channel is out of the poller (`New`) before it is established and
      after it is removed. */
  ghost predicate Core(c: Conn) {
    && Graceful(c.trace)
    && Kept(c.trace) == Wire(c.trace) + c.output
    && Received(c.trace) == Consumed(c.trace) + c.input
    && (c.state.Connecting? ==>
          c.chan == FRESH_CHAN && c.output == "" && c.input == "" && forall e | e in c.trace :: Dropped(e))
    && (!c.state.Connecting? ==> Up in c.trace)
    && (Down in c.trace <==> c.state.Disconnected?)
    && (c.Open() ==> c.chan.index != Deleted && c.chan.IsReading() && (c.chan.IsWriting() <==> c.output != ""))
    && (c.state.Connected? ==> c.chan.index == Added && HalfClosed !in c.trace)
    && (c.state.Disconnecting? ==> (HalfClosed in c.trace <==> c.output == ""))
    && (c.state.Disconnected? ==> c.chan.events == NONE_EVENT)
  }

  /** The channel is in the poller exactly while the connection is open. */
  predicate Placed(c: Conn) {
    && (c.Open() ==> c.chan.index == Added)
    && (c.state.Disconnected? ==> c.chan.index != Added)
  }

  /** What a run keeps besides when its calls come in order. */
  ghost predicate Inv(c: Conn) { Core(c) && Paired(c.trace) && Placed(c) }

  lemma WireSnoc(t: seq<Event>, e: Event)
    ensures Wire(t + [e]) == if e.Wrote? then Wire(t) + e.bytes else Wire(t)
    ensures Kept(t + [e]) == if e.Sent? && e.kept then Kept(t) + e.message else Kept(t)
    ensures Received(t + [e]) == if e.Message? then Received(t) + e.bytes else Received(t)
    ensures Consumed(t + [e]) == if e.Took? then Consumed(t) + e.bytes else Consumed(t)
    ensures Graceful(t + [e]) <==> Graceful(t) && MayFollow(t, e)
  {
    assert (t + [e])[..|t|] == t;
    assert Received(t) + "" == Received(t) && Consumed(t) + "" == Consumed(t);
    assert Wire(t) + "" == Wire(t) && Kept(t) + "" == Kept(t);
  }

  lemma PairedSnoc(t: seq<Event>, e: Event)
    ensures Paired(t + [e]) <==> Paired(t) && (Told(e) ==> Down !in t)
  {
    assert (t + [e])[..|t|] == t;
  }

  lemma FreshInv(config: Config)
    ensures Inv(FreshConn(config))
  {
  }

  /** A message behind queued output is queued whole. */
  lemma QueuedSendKeeps(c: Conn, message: string, w: WriteResult)
    requires Core(c) && c.state.Connected? && c.output != "" && Possible(w, |message|)
    ensures Core(Send(c, message, w).0)
  {
    hide Wire, Kept, Received, Consumed, Graceful, Send;
    WireSnoc(c.trace, Sent(message, true));
    var t := c.trace + [Sent(message, true)];
    QueuedSendIs(c, message, w);
    Regroup(Wire(c.trace), c.output, message);
  }

  lemma QueuedSendIs(c: Conn, message: string, w: WriteResult)
    requires Core(c) && c.state.Connected? && c.output != "" && Possible(w, |message|)
    ensures Send(c, message, w).0 == c.(output := c.output + message, trace := c.trace + [Sent(message, true)])
  {
    hide Wire, Kept, Received, Consumed, Graceful;
    var t := c.trace + [Sent(message, true)];
    assert t + [] == t && message[0..] == message && c.output + "" == c.output;
  }

  /** The history after a message is given to `send` and `n` bytes of it are written. */
  function DirectTrace(t: seq<Event>, message: string, kept: bool, n: nat): seq<Event>
    requires n <= |message|
  {
    t + [Sent(message, kept)] + if n > 0 then [Wrote(message[..n])] else []
  }

  lemma DirectStream(t: seq<Event>, message: string, kept: bool, n: nat)
    requires Graceful(t) && Kept(t) == Wire(t) && Up in t && Down !in t && HalfClosed !in t
    requires n <= |message| && (!kept ==> n == 0)
    ensures var t' := DirectTrace(t, message, kept, n);
      && Graceful(t') && Kept(t') == Wire(t') + (if kept then message[n..] else "")
      && Received(t') == Received(t) && Consumed(t') == Consumed(t)
      && Up in t' && Down !in t' && HalfClosed !in t'
  {
    hide Wire, Kept, Received, Consumed, Graceful;
    var t1 := t + [Sent(message, kept)];
    WireSnoc(t, Sent(message, kept));
    if n > 0 {
      WireSnoc(t1, Wrote(message[..n]));
      Regroup(Wire(t), message[..n], message[n..]);
      assert message[..n] + message[n..] == message;
    } else {
      assert t1 + [] == t1 && message[0..] == message;
    }
  }

  /** With nothing queued, the socket takes a prefix and the rest is queued, unless the peer is
      gone. */
  lemma DirectSendKeeps(c: Conn, message: string, w: WriteResult)
    requires Core(c) && c.state.Connected? && c.output == "" && Possible(w, |message|)
    ensures Core(Send(c, message, w).0)
  {
    hide Wire, Kept, Received, Consumed, Graceful, Send, DirectTrace;
    var n := if w.Accepted? then w.n else 0;
    DirectSendIs(c, message, w, n);
    DirectStream(c.trace, message, !w.PeerGone?, n);
  }

  lemma DirectSendIs(c: Conn, message: string, w: WriteResult, n: nat)
    requires Core(c) && c.state.Connected? && c.output == "" && Possible(w, |message|)
    requires n == if w.Accepted? then w.n else 0
    ensures Send(c, message, w).0
         == c.(trace := DirectTrace(c.trace, message, !w.PeerGone?, n),
               output := if w.PeerGone? then "" else message[n..],
               chan := if w.PeerGone? || n == |message| then c.chan else EnableWriting(c.chan))
  {
    hide Wire, Kept, Received, Consumed, Graceful;
    assert "" + message[n..] == message[n..];
  }

  lemma RefusedSendKeeps(c: Conn, message: string, w: WriteResult)
    requires Core(c) && !c.state.Connected? && Possible(w, |message|)
    ensures Core(Send(c, message, w).0)
  {
    hide Wire, Kept, Received, Consumed, Graceful;
    WireSnoc(c.trace, Sent(message, false));
  }

  lemma SendKeeps(c: Conn, message: string, w: WriteResult)
    requires Core(c) && Possible(w, |message|)
    ensures Core(Send(c, message, w).0)
  {
    hide Core, Send;
    if !c.state.Connected? {
      RefusedSendKeeps(c, message, w);
    } else if c.output != "" {
      QueuedSendKeeps(c, message, w);
    } else {
      DirectSendKeeps(c, message, w);
    }
  }

  lemma ShutdownKeeps(c: Conn)
    requires Core(c)
    ensures Core(Shutdown(c))
  {
    hide Wire, Kept, Received, Consumed, Graceful;
    WireSnoc(c.trace, HalfClosed);
  }

  lemma EstablishKeeps(c: Conn)
    requires Core(c) && c.state.Connecting?
    ensures Core(ConnectEstablished(c))
  {
    hide Wire, Kept, Received, Consumed, Graceful;
    WireSnoc(c.trace, Up);
  }

  lemma CloseKeeps(c: Conn)
    requires Core(c) && c.chan.index != New
    ensures Core(HandleClose(c))
  {
    hide Wire, Kept, Received, Consumed, Graceful;
    WireSnoc(c.trace, Down);
  }

  lemma ReadKeeps(c: Conn, r: ReadResult)
    requires Core(c) && c.chan.index != New
    ensures Core(HandleRead(c, r))
  {
    hide Wire, Kept, Received, Consumed, Graceful;
    CloseKeeps(c);
    if r.Got? {
      WireSnoc(c.trace, Message(r.bytes));
      Regroup(Consumed(c.trace), c.input, r.bytes);
    }
  }

  lemma WriteKeeps(c: Conn, w: WriteResult)
    requires Core(c) && Possible(w, |c.output|) && c.chan.index != New
    ensures Core(HandleWrite(c, w).0)
  {
    hide Wire, Kept, Received, Consumed, Graceful;
    if c.chan.IsWriting() && w.Accepted? && w.n > 0 {
      var e := Wrote(c.output[..w.n]);
      WireSnoc(c.trace, e);
      WireSnoc(c.trace + [e], HalfClosed);
      assert c.output == c.output[..w.n] + Drop(c.output, w.n);
      Regroup(Wire(c.trace), c.output[..w.n], Drop(c.output, w.n));
    }
  }

  lemma DestroyKeeps(c: Conn)
    requires Core(c)
    ensures Core(ConnectDestroyed(c))
  {
    hide Wire, Kept, Received, Consumed, Graceful;
    WireSnoc(c.trace, Down);
  }

  /** A connection that is destroyed has told its user DOWN, and leaves no interest behind, exactly when it was
      connected or already closed: half-closing is the one state after UP that `connectDestroyed` does not look at. */
  lemma DestroyExactly(c: Conn)
    requires Inv(c)
    ensures var d := ConnectDestroyed(c);
      && d.chan.index == New
      && ((Down in d.trace && d.chan.events == NONE_EVENT) <==> c.state.Connected? || c.state.Disconnected?)
    ensures Inv(ConnectDestroyed(c)) <==> !c.state.Disconnecting?
    ensures c.state.Disconnecting? ==>
      var d := ConnectDestroyed(c); Down !in d.trace && d.chan.IsReading() && d.chan.index == New && d.Open()
  {
    DestroyKeeps(c);
    PairedSnoc(c.trace, Down);
  }

  // Whole runs

  /** The calls a connection receives from its loop and, on the loop thread, from its user.
      `Retrieve` is the user reading the input buffer. */
  datatype Op = Establish | UserSend(message: string, w: WriteResult) | UserShutdown | Retrieve(n: nat)
              | OnClose | OnRead(r: ReadResult) | OnWrite(w: WriteResult) | Destroy

  /** When a call can come: the poller reports only a channel that is not removed, and nothing removes
      one while it is being handled. */
  predicate Enabled(c: Conn, op: Op) {
    match op
    case Establish => c.state.Connecting?
    case UserSend(message, w) => Possible(w, |message|)
    case UserShutdown => true
    case Retrieve(_) => true
    case OnClose => c.chan.index != New
    case OnRead(_) => c.chan.index != New
    case OnWrite(w) => c.chan.index != New && Possible(w, |c.output|)
    case Destroy => true
  }

  function Apply(c: Conn, op: Op): Conn
    requires Enabled(c, op)
  {
    match op
    case Establish => ConnectEstablished(c)
    case UserSend(message, w) => Send(c, message, w).0
    case UserShutdown => Shutdown(c)
    case Retrieve(n) => Retrieved(c, n)
    case OnClose => HandleClose(c)
    case OnRead(r) => HandleRead(c, r)
    case OnWrite(w) => HandleWrite(c, w).0
    case Destroy => ConnectDestroyed(c)
  }

  function RunOps(c: Conn, ops: seq<Op>): Option<Conn> {
    if ops == [] then Some(c)
    else
      match RunOps(c, ops[..|ops| - 1])
      case None => None
      case Some(c1) => if Enabled(c1, ops[|ops| - 1]) then Some(Apply(c1, ops[|ops| - 1])) else None
  }

  lemma ApplyKeeps(c: Conn, op: Op)
    requires Core(c) && Enabled(c, op)
    ensures Core(Apply(c, op))
  {
    hide Core;
    match op
    case Establish => EstablishKeeps(c);
    case UserSend(message, w) => SendKeeps(c, message, w);
    case UserShutdown => ShutdownKeeps(c);
    case Retrieve(n) => RetrieveKeeps(c, n);
    case OnClose => CloseKeeps(c);
    case OnRead(r) => ReadKeeps(c, r);
    case OnWrite(w) => WriteKeeps(c, w);
    case Destroy => DestroyKeeps(c);
  }

  /** What the user takes and what is left are what was there. */
  lemma RetrieveKeeps(c: Conn, n: nat)
    requires Core(c)
    ensures Core(Retrieved(c, n))
  {
    hide Core, Drop;
    var rest := Drop(c.input, n);
    DropLeaves(c.input, n);
    var bytes := c.input[..|c.input| - |rest|];
    if bytes == "" {
      assert c.trace + [] == c.trace;
      assert Retrieved(c, n) == c;
    } else {
      TakingKeeps(c, bytes, rest);
    }
  }

  lemma TakingKeeps(c: Conn, bytes: string, rest: string)
    requires Core(c) && bytes != "" && c.input == bytes + rest
    ensures Core(c.(input := rest, trace := c.trace + [Took(bytes)]))
  {
    hide Wire, Kept, Received, Consumed, Graceful;
    WireSnoc(c.trace, Took(bytes));
    Regroup(Consumed(c.trace), bytes, rest);
  }

  lemma DropLeaves(s: string, n: nat)
    ensures |Drop(s, n)| <= |s| && s[..|s| - |Drop(s, n)|] + Drop(s, n) == s
    ensures |Drop(s, n)| == |s| ==> Drop(s, n) == s
  {
  }

  /** Over every run of one connection, closes and reads after a close included: the half-close is
      graceful (`HalfCloseIsGraceful`), nothing is written after DOWN (`DownEndsOutput`), the bytes on
      the wire followed by the output buffer are the kept messages in order, the bytes the user took
      followed by the input buffer are the bytes read, and while it is open it waits to write exactly
      when bytes are queued. */
  lemma {:induction false} EveryRun(config: Config, ops: seq<Op>)
    requires RunOps(FreshConn(config), ops).Some?
    ensures Core(RunOps(FreshConn(config), ops).value)
    decreases |ops|
  {
    hide Core, Enabled, Apply;
    if ops == [] {
      FreshCore(config);
    } else {
      EveryRun(config, ops[..|ops| - 1]);
      ApplyKeeps(RunOps(FreshConn(config), ops[..|ops| - 1]).value, ops[|ops| - 1]);
    }
  }

  lemma FreshCore(config: Config)
    ensures Core(FreshConn(config))
  {
  }

  /** The bytes the reads of a run bring. */
  function Delivered(ops: seq<Op>): string {
    if ops == [] then ""
    else
      var op := ops[|ops| - 1];
      Delivered(ops[..|ops| - 1]) + if op.OnRead? && op.r.Got? then op.r.bytes else ""
  }

  lemma ReceivedSnoc(t: seq<Event>, e: Event)
    ensures Received(t + [e]) == if e.Message? then Received(t) + e.bytes else Received(t)
  {
    WireSnoc(t, e);
  }

  lemma SendReceives(c: Conn, message: string, w: WriteResult)
    requires Possible(w, |message|)
    ensures Received(Send(c, message, w).0.trace) == Received(c.trace)
  {
    hide Received;
    var kept := c.state.Connected? && !PeerFoundGone(c, w);
    var t := c.trace + [Sent(message, kept)];
    ReceivedSnoc(c.trace, Sent(message, kept));
    ReceivedSnoc(t, Wrote(message[..Taken(c, w)]));
    assert t + [] == t;
  }

  lemma WriteReceives(c: Conn, w: WriteResult)
    requires Possible(w, |c.output|)
    ensures Received(HandleWrite(c, w).0.trace) == Received(c.trace)
  {
    hide Received, Drop;
    if c.chan.IsWriting() && w.Accepted? && w.n > 0 {
      var e := Wrote(c.output[..w.n]);
      ReceivedSnoc(c.trace, e);
      ReceivedSnoc(c.trace + [e], HalfClosed);
    }
  }

  lemma RetrieveReceives(c: Conn, n: nat)
    ensures Received(Retrieved(c, n).trace) == Received(c.trace)
  {
    hide Received, Drop;
    DropLeaves(c.input, n);
    ReceivedSnoc(c.trace, Took(c.input[..|c.input| - |Drop(c.input, n)|]));
    assert c.trace + [] == c.trace;
  }

  /** Only a read brings bytes. */
  lemma ApplyReceives(c: Conn, op: Op)
    requires Enabled(c, op)
    ensures Received(Apply(c, op).trace) == Received(c.trace) + if op.OnRead? && op.r.Got? then op.r.bytes else ""
  {
    hide Received, Send, HandleWrite, Retrieved;
    assert Received(c.trace) + "" == Received(c.trace);
    match op
    case UserSend(message, w) => SendReceives(c, message, w);
    case OnWrite(w) => WriteReceives(c, w);
    case Retrieve(n) => RetrieveReceives(c, n);
    case OnRead(r) =>
      ReceivedSnoc(c.trace, Down);
      if r.Got? { ReceivedSnoc(c.trace, Message(r.bytes)); }
    case Establish => ReceivedSnoc(c.trace, Up);
    case UserShutdown => ReceivedSnoc(c.trace, HalfClosed);
    case OnClose => ReceivedSnoc(c.trace, Down);
    case Destroy => ReceivedSnoc(c.trace, Down);
  }

  /** Over every run the bytes read are the bytes the user has taken followed by the input buffer: nothing is lost,
      repeated or reordered. */
  lemma EveryByteRead(config: Config, ops: seq<Op>)
    requires RunOps(FreshConn(config), ops).Some?
    ensures var c := RunOps(FreshConn(config), ops).value; Delivered(ops) == Consumed(c.trace) + c.input
  {
    EveryRun(config, ops);
    ReadsAreReceived(config, ops);
  }

  lemma {:induction false} ReadsAreReceived(config: Config, ops: seq<Op>)
    requires RunOps(FreshConn(config), ops).Some?
    ensures Delivered(ops) == Received(RunOps(FreshConn(config), ops).value.trace)
    decreases |ops|
  {
    hide Core, Enabled, Apply;
    if ops == [] {
    } else {
      EveryRun(config, ops[..|ops| - 1]);
      ReadsAreReceived(config, ops[..|ops| - 1]);
      ApplyReceives(RunOps(FreshConn(config), ops[..|ops| - 1]).value, ops[|ops| - 1]);
    }
  }

  /** A close, or a read that brings something, handled after a close. */
  predicate TellsLate(c: Conn, op: Op) {
    c.state.Disconnected? && (op.OnClose? || (op.OnRead? && op.r.Got?))
  }

  lemma SendPaired(c: Conn, message: string, w: WriteResult)
    requires Core(c) && Possible(w, |message|)
    ensures Paired(Send(c, message, w).0.trace) <==> Paired(c.trace)
  {
    hide Wire, Kept, Received, Consumed, Graceful, Paired;
    var kept := c.state.Connected? && !PeerFoundGone(c, w);
    PairedSnoc(c.trace, Sent(message, kept));
    var t := c.trace + [Sent(message, kept)];
    assert t + [] == t;
    PairedSnoc(t, Wrote(message[..Taken(c, w)]));
  }

  lemma WritePaired(c: Conn, w: WriteResult)
    requires Core(c) && Possible(w, |c.output|)
    ensures Paired(HandleWrite(c, w).0.trace) <==> Paired(c.trace)
  {
    hide Wire, Kept, Received, Consumed, Graceful, Paired;
    if c.chan.IsWriting() && w.Accepted? && w.n > 0 {
      var e := Wrote(c.output[..w.n]);
      PairedSnoc(c.trace, e);
      PairedSnoc(c.trace + [e], HalfClosed);
    }
  }

  lemma RetrievePaired(c: Conn, n: nat)
    ensures Paired(Retrieved(c, n).trace) <==> Paired(c.trace)
  {
    hide Paired;
    PairedSnoc(c.trace, Took(c.input[..|c.input| - |Drop(c.input, n)|]));
    assert c.trace + [] == c.trace;
  }

  lemma ApplyPaired(c: Conn, op: Op)
    requires Core(c) && Enabled(c, op)
    ensures Paired(Apply(c, op).trace) <==> Paired(c.trace) && !TellsLate(c, op)
  {
    hide Wire, Kept, Received, Consumed, Graceful, Paired, Send, HandleWrite;
    if op.UserSend? {
      SendPaired(c, op.message, op.w);
    } else if op.OnWrite? {
      WritePaired(c, op.w);
    } else {
      PairedSnoc(c.trace, Up);
      PairedSnoc(c.trace, Down);
      PairedSnoc(c.trace, HalfClosed);
      if op.OnRead? && op.r.Got? { PairedSnoc(c.trace, Message(op.r.bytes)); }
      if op.Retrieve? { RetrievePaired(c, op.n); }
    }
  }

  predicate NoneLate(c: Conn, ops: seq<Op>) {
    ops == [] ||
    var n := |ops| - 1;
    && NoneLate(c, ops[..n])
    && (RunOps(c, ops[..n]).Some? ==> !TellsLate(RunOps(c, ops[..n]).value, ops[n]))
  }

  /** The history of a run is legal exactly when no close and no read of the run tells the user anything
      after a close. */
  lemma {:induction false} LegalExactly(config: Config, ops: seq<Op>)
    requires RunOps(FreshConn(config), ops).Some?
    ensures Legal(RunOps(FreshConn(config), ops).value.trace) <==> NoneLate(FreshConn(config), ops)
    decreases |ops|
  {
    hide Core, Enabled, Apply, TellsLate, Graceful, Paired;
    EveryRun(config, ops);
    assert Core(RunOps(FreshConn(config), ops).value);
    if ops == [] {
      FreshLegal(config);
    } else {
      EveryRun(config, ops[..|ops| - 1]);
      var c := RunOps(FreshConn(config), ops[..|ops| - 1]).value;
      LegalExactly(config, ops[..|ops| - 1]);
      ApplyPaired(c, ops[|ops| - 1]);
      CoreIsGraceful(c);
    }
    CoreIsGraceful(RunOps(FreshConn(config), ops).value);
  }

  lemma FreshLegal(config: Config)
    ensures Legal(FreshConn(config).trace)
  {
  }

  lemma CoreIsGraceful(c: Conn)
    requires Core(c)
    ensures Graceful(c.trace)
  {
  }

  /** A call that comes in order: no input or hang-up is handled after a close, and only a connection
      that is not half-closing is destroyed. */
  predicate Orderly(c: Conn, op: Op) {
    match op
    case OnClose => c.Open()
    case OnRead(_) => c.Open()
    case Destroy => !c.state.Disconnecting?
    case _ => true
  }

  lemma ApplyPlaced(c: Conn, op: Op)
    requires Core(c) && Placed(c) && Enabled(c, op) && Orderly(c, op)
    ensures Placed(Apply(c, op))
  {
    hide Wire, Kept, Received, Consumed, Graceful;
  }

  lemma ApplyCalm(c: Conn, op: Op)
    requires Inv(c) && Enabled(c, op) && Orderly(c, op)
    ensures Inv(Apply(c, op))
  {
    hide Core, Placed, Paired;
    ApplyKeeps(c, op);
    ApplyPaired(c, op);
    ApplyPlaced(c, op);
  }

  predicate OrderlyRun(c: Conn, ops: seq<Op>) {
    ops == [] ||
    var n := |ops| - 1;
    && OrderlyRun(c, ops[..n])
    && (RunOps(c, ops[..n]).Some? ==> Orderly(RunOps(c, ops[..n]).value, ops[n]))
  }

  /** And over every orderly run the history is legal (`CallbacksPair`), and the channel is in the poller
      exactly while the connection is open. */
  lemma {:induction false} EveryOrderlyRun(config: Config, ops: seq<Op>)
    requires RunOps(FreshConn(config), ops).Some? && OrderlyRun(FreshConn(config), ops)
    ensures Inv(RunOps(FreshConn(config), ops).value)
    decreases |ops|
  {
    hide Inv, Enabled, Apply, Orderly;
    if ops == [] {
      FreshInv(config);
    } else {
      EveryOrderlyRun(config, ops[..|ops| - 1]);
      ApplyCalm(RunOps(FreshConn(config), ops[..|ops| - 1]).value, ops[|ops| - 1]);
    }
  }

  /** A connection of an orderly run never leaves its channel in the kernel without events. */
  lemma NeverIdle(c: Conn)
    requires Inv(c)
    ensures c.chan.Interest() != Some(NONE_EVENT)
  {
    hide Graceful, Paired, Wire, Kept, Received, Consumed;
  }

  function Rank(s: ConnState): nat {
    match s
    case Connecting => 0
    case Connected => 1
    case Disconnecting => 2
    case Disconnected => 3
  }

  /** The state only moves forward, by one step or from Connected straight to Disconnected, and
      the history only grows. */
  lemma StateAdvances(c: Conn, op: Op)
    requires Core(c) && Enabled(c, op)
    ensures Rank(c.state) <= Rank(Apply(c, op).state)
    ensures c.state.Connecting? ==> Rank(Apply(c, op).state) <= 1
    ensures c.trace <= Apply(c, op).trace
  {
  }

  /** A message is refused exactly when the connection is not connected, or the peer is found
      gone by a direct write. */
  lemma RefusedExactly(c: Conn, message: string, w: WriteResult)
    requires Core(c) && Possible(w, |message|)
    ensures var c' := Send(c, message, w).0;
      Sent(message, false) == c'.trace[|c.trace|]
      <==> !c.state.Connected? || (c.output == "" && w.PeerGone?)
  {
  }

  /** The high-water callback is queued exactly when the queue grows across the mark. */
  lemma HighWaterOnCrossing(c: Conn, message: string, w: WriteResult)
    requires Core(c) && Possible(w, |message|) && c.config.highWater
    ensures var (c', notices) := Send(c, message, w);
      (exists n :: HighWater(n) in notices) <==> |c.output| < c.config.mark <= |c'.output|
    ensures var (c', notices) := Send(c, message, w);
      forall n | HighWater(n) in notices :: n == |c'.output|
  {
    var (c', notices) := Send(c, message, w);
    if |c.output| < c.config.mark <= |c'.output| {
      assert notices[0] == HighWater(|c'.output|);
    }
  }

  // One dispatch

  /** Dispatching any poll result keeps what every run keeps. */
  lemma DispatchKeeps(c: Conn, re: Revents, r: ReadResult, w: WriteResult)
    requires Core(c) && c.chan.index != New && Possible(w, |c.output|)
    ensures Core(Dispatch(c, re, r, w).0)
  {
    hide Core;
    var c1 := if ClosesFirst(re) then HandleClose(c) else c;
    CloseKeeps(c);
    ReadKeeps(c1, r);
    WriteKeeps(if Reads(re) then HandleRead(c1, r) else c1, w);
  }

  /** It keeps callbacks paired too unless the kernel reports a hang-up and urgent data without input. */
  lemma DispatchCalm(c: Conn, re: Revents, r: ReadResult, w: WriteResult)
    requires Inv(c) && c.Open() && Possible(w, |c.output|) && !(re.hup && re.pri && !re.epollin)
    ensures Inv(Dispatch(c, re, r, w).0)
  {
    hide Inv, HandleWrite, HandleClose, HandleRead;
    OutputStays(c, r);
    if ClosesFirst(re) {
      ApplyCalm(c, OnClose);
      ApplyCalmWrite(HandleClose(c), w);
    } else if Reads(re) {
      ApplyCalm(c, OnRead(r));
      ApplyCalmWrite(HandleRead(c, r), w);
    } else {
      ApplyCalmWrite(c, w);
    }
  }

  /** A close or a read leaves the queued output, and the channel with its poller. */
  lemma OutputStays(c: Conn, r: ReadResult)
    requires Inv(c) && c.Open()
    ensures c.chan.index != New
    ensures HandleClose(c).output == c.output && HandleClose(c).chan.index != New
    ensures HandleRead(c, r).output == c.output && HandleRead(c, r).chan.index != New
  {
    hide Graceful, Paired, Wire, Kept, Received, Consumed;
  }

  lemma ApplyCalmWrite(c: Conn, w: WriteResult)
    requires Inv(c) && c.chan.index != New && Possible(w, |c.output|)
    ensures Inv(HandleWrite(c, w).0)
  {
    hide Inv;
    ApplyCalm(c, OnWrite(w));
  }

  /** In that case a read that brings data calls back after DOWN. */
  lemma DispatchAfterDown(c: Conn, re: Revents, w: WriteResult)
    requires Inv(c) && c.Open() && Possible(w, |c.output|) && re.hup && re.pri && !re.epollin
    ensures !Legal(Dispatch(c, re, Got("x"), w).0.trace)
  {
    var c1 := HandleClose(c);
    CloseKeeps(c);
    PairedSnoc(c1.trace, Message("x"));
    var c2 := HandleRead(c1, Got("x"));
    assert Dispatch(c, re, Got("x"), w).0 == c2;
  }

  /** Callback pairing survives every dispatch, whatever the socket does, exactly for the event
      masks without a hang-up and urgent data but no input. */
  lemma DispatchLegalExactly(c: Conn, re: Revents)
    requires Inv(c) && c.Open()
    ensures (forall r, w | Possible(w, |c.output|) :: Legal(Dispatch(c, re, r, w).0.trace))
        <==> !(re.hup && re.pri && !re.epollin)
  {
    if re.hup && re.pri && !re.epollin {
      DispatchAfterDown(c, re, WouldBlock);
    } else {
      forall r, w | Possible(w, |c.output|) ensures Legal(Dispatch(c, re, r, w).0.trace) {
        DispatchCalm(c, re, r, w);
      }
    }
  }

  /** A dispatch that closes writes nothing afterwards, even when output was ready too. */
  lemma CloseThenOutputIsQuiet(c: Conn, re: Revents, r: ReadResult, w: WriteResult)
    requires Inv(c) && c.Open() && Possible(w, |c.output|) && !(re.hup && re.pri && !re.epollin)
    requires ClosesFirst(re) || (Reads(re) && r == Got(""))
    ensures Dispatch(c, re, r, w).0.trace == c.trace + [Down]
    ensures Dispatch(c, re, r, w).0.chan.Interest() == None
  {
  }
}
