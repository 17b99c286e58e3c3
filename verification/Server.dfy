/** The life of connections across loops: src/net/TcpServer.cpp over the functor queues of
    src/net/EventLoop.cpp and the handlers of src/net/TcpConnection.cpp.  Steps are the atomic
    actions of the loop threads; a connection is touched only on its own loop and the server's
    map only on the base loop, so a handler or functor is one step, and user code runs between
    steps. */
module Servers {
  import opened Text
  import opened Buffers
  import opened ChannelSpec
  import opened FunctorQueues
  import opened ConnSpec

  type Id = nat
  type LoopId = int

  const BASE: LoopId := 0
  const INT_MAX: nat := 0x7FFF_FFFF

  /** The functors queued on loops; each holds a reference to its connection. */
  datatype Functor = RunEstablished(c: Id) | RunRemove(c: Id) | RunDestroyed(c: Id) | RunNotice(c: Id, notice: Notice)

  /** Where the handling of one active channel is: before the hang-up test, at a close callback
      (after the hang-up test or after reading), before reading, before writing. */
  datatype Stage = HangUp | ClosedByHangUp | Reading | ClosedByRead | Writing

  datatype Phase =
    | InPoll
    | Dispatching(rest: seq<(Id, Revents)>)
    | Handling(c: Id, re: Revents, stage: Stage, rest: seq<(Id, Revents)>)
    | Running

  /** `interest` is the kernel's table of the loop's poller: which connections it reports, for what. */
  datatype Loop = Loop(phase: Phase, q: Queue<Functor>, interest: map<Id, Events>)

  /** `names` is `_connections`; `conns` are the connection objects not yet freed, `home` their
      loops; `held` are those the user keeps a pointer to. */
  datatype Server = Server(prefix: string, nextConnId: nat, names: map<string, Id>, loops: map<LoopId, Loop>,
                           conns: map<Id, Conn>, home: map<Id, LoopId>, held: set<Id>)

  /** The name given to the connection numbered `n`. */
  function Name(prefix: string, n: nat): string { prefix + "#" + Decimal(n) }

  lemma NamesDiffer(prefix: string, m: nat, n: nat)
    requires Name(prefix, m) == Name(prefix, n)
    ensures m == n
  {
    var k := |prefix| + 1;
    assert Name(prefix, m)[k..] == Decimal(m) && Name(prefix, n)[k..] == Decimal(n);
    DecimalInjective(m, n);
  }

  // References

  predicate QueueMentions(q: Queue<Functor>, c: Id) {
    exists f | f in q.batch + q.pending + q.ran :: f.c == c
  }

  predicate LoopMentions(loop: Loop, c: Id) {
    (loop.phase.Handling? && loop.phase.c == c) || QueueMentions(loop.q, c)
  }

  /** Some shared pointer to `c` exists: the server's map, a queued functor or one still in the
      batch being run, the guard of the channel being handled, or the user. */
  predicate Referenced(s: Server, c: Id) {
    c in s.names.Values || c in s.held || exists l | l in s.loops :: LoopMentions(s.loops[l], c)
  }

  // Elementary updates

  function WithLoop(s: Server, l: LoopId, loop: Loop): Server { s.(loops := s.loops[l := loop]) }

  function WithPhase(s: Server, l: LoopId, phase: Phase): Server
    requires l in s.loops
  {
    WithLoop(s, l, s.loops[l].(phase := phase))
  }

  function Queued(s: Server, l: LoopId, f: Functor): Server
    requires l in s.loops
  {
    WithLoop(s, l, s.loops[l].(q := s.loops[l].q.Push(f)))
  }

  function Popped(s: Server, l: LoopId): Server
    requires l in s.loops && s.loops[l].q.batch != []
  {
    WithLoop(s, l, s.loops[l].(q := s.loops[l].q.RunNext()))
  }

  /** The kernel's table when a channel has changed: its update has put what it asks for. */
  function KernelAfter(interest: map<Id, Events>, c: Id, before: Chan, after: Chan): map<Id, Events> {
    if after == before then interest
    else
      match after.Interest()
      case Some(events) => interest[c := events]
      case None => interest - {c}
  }

  predicate Present(s: Server, c: Id) { c in s.conns && c in s.home && s.home[c] in s.loops }

  /** A connection changes, and its poller with its channel. */
  function WithConn(s: Server, c: Id, conn: Conn): Server
    requires Present(s, c)
  {
    var loop := s.loops[s.home[c]];
    WithLoop(s, s.home[c], loop.(interest := KernelAfter(loop.interest, c, s.conns[c].chan, conn.chan)))
      .(conns := s.conns[c := conn])
  }

  function NotifyAll(s: Server, l: LoopId, c: Id, notices: seq<Notice>): Server
    requires l in s.loops
    decreases |notices|
  {
    if notices == [] then s else NotifyAll(Queued(s, l, RunNotice(c, notices[0])), l, c, notices[1..])
  }

  /** `removeConnectionInLoop`: off the map, if it is still there, and a destroying functor to the
      connection's loop. */
  function RemoveConnectionInLoop(s: Server, c: Id): Server
    requires Present(s, c)
  {
    Queued(s.(names := s.names - {Name(s.prefix, c)}), s.home[c], RunDestroyed(c))
  }

  // Steps

  datatype Step =
    | Accept(ioLoop: LoopId, config: Config)
    | PollReturns(l: LoopId, active: seq<(Id, Revents)>)
    | NextChannel(l: LoopId)
    | TestHangUp(l: LoopId)
    | CloseCallback(l: LoopId)
    | ReadChannel(l: LoopId, r: ReadResult)
    | WriteChannel(l: LoopId, w: WriteResult)
    | StartFunctors(l: LoopId)
    | RunFunctor(l: LoopId)
    | EndFunctors(l: LoopId)
    | UserCall(c: Id, op: Op)
    | Hold(c: Id)
    | Release(c: Id)
    | Free(c: Id)

  /** A poll reports entries of the kernel's table, each once, with any events. */
  predicate CanReport(interest: map<Id, Events>, active: seq<(Id, Revents)>) {
    && (forall i | 0 <= i < |active| :: active[i].0 in interest)
    && forall i, j | 0 <= i < j < |active| :: active[i].0 != active[j].0
  }

  predicate HandlingOf(s: Server, l: LoopId) {
    && l in s.loops && s.loops[l].phase.Handling?
    && Present(s, s.loops[l].phase.c) && s.home[s.loops[l].phase.c] == l
  }

  function DoAccept(s: Server, ioLoop: LoopId, config: Config): Server
    requires ioLoop in s.loops
  {
    var c := s.nextConnId;
    var s1 := s.(nextConnId := c + 1, names := s.names[Name(s.prefix, c) := c],
                 conns := s.conns[c := FreshConn(config)], home := s.home[c := ioLoop]);
    if ioLoop == BASE then WithConn(s1, c, ConnectEstablished(FreshConn(config)))
    else Queued(s1, ioLoop, RunEstablished(c))
  }

  function DoTestHangUp(s: Server, l: LoopId): Server
    requires HandlingOf(s, l)
  {
    var p := s.loops[l].phase;
    if ClosesFirst(p.re) then
      WithPhase(WithConn(s, p.c, HandleClose(s.conns[p.c])), l, p.(stage := ClosedByHangUp))
    else WithPhase(s, l, p.(stage := Reading))
  }

  /** The phase in which a handler goes on after a close callback. */
  function AfterCallback(p: Phase): Phase
    requires p.Handling?
  {
    p.(stage := if p.stage.ClosedByHangUp? then Reading else Writing)
  }

  function DoCloseCallback(s: Server, l: LoopId): Server
    requires HandlingOf(s, l) && BASE in s.loops
  {
    var p := s.loops[l].phase;
    var s1 := WithPhase(s, l, AfterCallback(p));
    if l == BASE then RemoveConnectionInLoop(s1, p.c) else Queued(s1, BASE, RunRemove(p.c))
  }

  function DoReadChannel(s: Server, l: LoopId, r: ReadResult): Server
    requires HandlingOf(s, l)
  {
    var p := s.loops[l].phase;
    if !Reads(p.re) then WithPhase(s, l, p.(stage := Writing))
    else WithPhase(WithConn(s, p.c, HandleRead(s.conns[p.c], r)), l,
                   p.(stage := if r == Got("") then ClosedByRead else Writing))
  }

  function DoWriteChannel(s: Server, l: LoopId, w: WriteResult): Server
    requires HandlingOf(s, l) && Possible(w, |s.conns[s.loops[l].phase.c].output|)
  {
    var p := s.loops[l].phase;
    var s1 := WithPhase(s, l, Dispatching(p.rest));
    if !p.re.out then s1
    else
      var (conn, notices) := HandleWrite(s.conns[p.c], w);
      NotifyAll(WithConn(s1, p.c, conn), l, p.c, notices)
  }

  function DoRunFunctor(s: Server, l: LoopId): Server
    requires l in s.loops && s.loops[l].q.batch != [] && Present(s, s.loops[l].q.batch[0].c)
  {
    var s1 := Popped(s, l);
    match s.loops[l].q.batch[0]
    case RunEstablished(c) => WithConn(s1, c, ConnectEstablished(s.conns[c]))
    case RunRemove(c) => RemoveConnectionInLoop(s1, c)
    case RunDestroyed(c) => WithConn(s1, c, ConnectDestroyed(s.conns[c]))
    case RunNotice(_, _) => s1
  }

  predicate IsUserOp(op: Op) { op.UserSend? || op.UserShutdown? || op.Retrieve? }

  function NoticesOf(c: Conn, op: Op): seq<Notice>
    requires Enabled(c, op)
  {
    match op
    case UserSend(message, w) => Send(c, message, w).1
    case _ => []
  }

  /** User code runs on the connection's loop, inside a handler or a functor, with a pointer. */
  predicate CanCall(s: Server, c: Id, op: Op) {
    && Present(s, c) && !s.loops[s.home[c]].phase.InPoll? && Referenced(s, c)
    && IsUserOp(op) && Enabled(s.conns[c], op)
  }

  function DoUserCall(s: Server, c: Id, op: Op): Server
    requires CanCall(s, c, op)
  {
    NotifyAll(WithConn(s, c, Apply(s.conns[c], op)), s.home[c], c, NoticesOf(s.conns[c], op))
  }

  /** The last reference is gone. */
  function Freed(s: Server, c: Id): Server { s.(conns := s.conns - {c}, home := s.home - {c}) }

  /** When a step can happen. */
  predicate CanDo(s: Server, step: Step) {
    match step
    case Accept(ioLoop, _) =>
      BASE in s.loops && s.loops[BASE].phase.Dispatching? && ioLoop in s.loops && s.nextConnId < INT_MAX
    case PollReturns(l, active) => l in s.loops && s.loops[l].phase.InPoll? && CanReport(s.loops[l].interest, active)
    case NextChannel(l) => l in s.loops && s.loops[l].phase.Dispatching? && s.loops[l].phase.rest != []
    case TestHangUp(l) => HandlingOf(s, l) && s.loops[l].phase.stage.HangUp?
    case CloseCallback(l) => HandlingOf(s, l) && BASE in s.loops && AtCallback(s.loops[l].phase, s.loops[l].phase.c)
    case ReadChannel(l, _) => HandlingOf(s, l) && s.loops[l].phase.stage.Reading?
    case WriteChannel(l, w) =>
      && HandlingOf(s, l) && s.loops[l].phase.stage.Writing?
      && Possible(w, |s.conns[s.loops[l].phase.c].output|)
    case StartFunctors(l) =>
      l in s.loops && s.loops[l].phase == Dispatching([]) && s.loops[l].q.batch == [] && s.loops[l].q.ran == []
    case RunFunctor(l) =>
      && l in s.loops && s.loops[l].phase.Running? && s.loops[l].q.batch != []
      && Present(s, s.loops[l].q.batch[0].c)
    case EndFunctors(l) => l in s.loops && s.loops[l].phase.Running? && s.loops[l].q.batch == []
    case UserCall(c, op) => CanCall(s, c, op)
    case Hold(c) => c in s.conns && Referenced(s, c)
    case Release(c) => c in s.held
    case Free(c) => c in s.conns && !Referenced(s, c)
  }

  function Do(s: Server, step: Step): Server
    requires CanDo(s, step)
  {
    match step
    case Accept(ioLoop, config) => DoAccept(s, ioLoop, config)
    case PollReturns(l, active) => WithPhase(s, l, Dispatching(active))
    case NextChannel(l) =>
      var x := s.loops[l].phase.rest[0];
      WithPhase(s, l, Handling(x.0, x.1, HangUp, s.loops[l].phase.rest[1..]))
    case TestHangUp(l) => DoTestHangUp(s, l)
    case CloseCallback(l) => DoCloseCallback(s, l)
    case ReadChannel(l, r) => DoReadChannel(s, l, r)
    case WriteChannel(l, w) => DoWriteChannel(s, l, w)
    case StartFunctors(l) => WithLoop(s, l, s.loops[l].(phase := Running, q := s.loops[l].q.Swap()))
    case RunFunctor(l) => DoRunFunctor(s, l)
    case EndFunctors(l) => WithLoop(s, l, s.loops[l].(phase := InPoll, q := s.loops[l].q.Finish()))
    case UserCall(c, op) => DoUserCall(s, c, op)
    case Hold(c) => s.(held := s.held + {c})
    case Release(c) => s.(held := s.held - {c})
    case Free(c) => Freed(s, c)
  }

  // What every run keeps

  function One(b: bool): nat { if b then 1 else 0 }

  /** How often `f` is still to run on a loop. */
  function Count(q: Queue<Functor>, f: Functor): nat {
    multiset(q.batch)[f] + multiset(q.pending)[f]
  }

  predicate AtCallback(phase: Phase, c: Id) {
    phase.Handling? && phase.c == c && (phase.stage.ClosedByHangUp? || phase.stage.ClosedByRead?)
  }

  /** Destroyed: closed, and its channel removed. */
  predicate Gone(conn: Conn) { conn.state.Disconnected? && conn.chan.index == New }

  /** Closed and not yet destroyed. */
  predicate Ending(conn: Conn) { conn.state.Disconnected? && conn.chan.index != New }

  /** The functors of `c` are on the loops they belong to, and none comes too early. */
  predicate Routed(q: Queue<Functor>, l: LoopId, c: Id, conn: Conn, home: LoopId) {
    && Count(q, RunEstablished(c)) == One(conn.state.Connecting? && l == home)
    && (Count(q, RunRemove(c)) > 0 ==> conn.state.Disconnected? && l == BASE)
    && (Count(q, RunDestroyed(c)) > 0 ==> conn.state.Disconnected? && l == home)
  }

  /** The kernel's entry for `c` is what its channel asks for, and only on its own loop. */
  predicate Watched(interest: map<Id, Events>, l: LoopId, c: Id, conn: Conn, home: LoopId) {
    if l == home && conn.chan.index == Added then c in interest && interest[c] == conn.chan.events else c !in interest
  }

  ghost predicate Settled(loop: Loop, l: LoopId, c: Id, conn: Conn, home: LoopId) {
    && Routed(loop.q, l, c, conn, home) && Watched(loop.interest, l, c, conn, home)
    && (AtCallback(loop.phase, c) ==> conn.state.Disconnected?)
  }

  ghost predicate Agrees(conn: Conn) {
    Core(conn) && (conn.tied <==> !conn.state.Connecting?) && (conn.Open() ==> conn.chan.index == Added)
  }

  /** On the server's map exactly until the first destroying functor is queued. */
  predicate Listing(listed: bool, conn: Conn, q: Queue<Functor>, c: Id) {
    listed <==> !Gone(conn) && Count(q, RunDestroyed(c)) == 0
  }

  ghost predicate GoodConn(s: Server, c: Id)
    requires Present(s, c)
  {
    && c < s.nextConnId && Agrees(s.conns[c])
    && Listing(Name(s.prefix, c) in s.names, s.conns[c], s.loops[s.home[c]].q, c)
    && forall l | l in s.loops :: Settled(s.loops[l], l, c, s.conns[c], s.home[c])
  }

  ghost predicate GoodQueue(known: set<Id>, q: Queue<Functor>) {
    forall f | f in q.batch + q.pending + q.ran :: f.c in known
  }

  /** A connection of loop `l` whose channel has not been removed. */
  predicate Here(conns: map<Id, Conn>, home: map<Id, LoopId>, l: LoopId, c: Id) {
    c in conns && c in home && home[c] == l && conns[c].chan.index != New
  }

  ghost predicate GoodPhase(conns: map<Id, Conn>, home: map<Id, LoopId>, l: LoopId, phase: Phase) {
    match phase
    case Dispatching(rest) => forall i | 0 <= i < |rest| :: Here(conns, home, l, rest[i].0)
    case Handling(c, _, _, rest) =>
      Here(conns, home, l, c) && forall i | 0 <= i < |rest| :: Here(conns, home, l, rest[i].0)
    case _ => true
  }

  ghost predicate GoodLoop(conns: map<Id, Conn>, home: map<Id, LoopId>, l: LoopId, loop: Loop) {
    && GoodQueue(conns.Keys, loop.q) && GoodPhase(conns, home, l, loop.phase)
    && (forall c | c in loop.interest :: c in conns)
    && (!loop.phase.Running? ==> loop.q.batch == [] && loop.q.ran == [])
  }

  ghost predicate GoodName(prefix: string, names: map<string, Id>, known: set<Id>, n: string)
    requires n in names
  {
    names[n] in known && n == Name(prefix, names[n])
  }

  ghost predicate SysInv(s: Server) {
    && BASE in s.loops && s.conns.Keys == s.home.Keys
    && (forall c | c in s.conns :: Present(s, c) && GoodConn(s, c))
    && (forall l | l in s.loops :: GoodLoop(s.conns, s.home, l, s.loops[l]))
    && (forall n | n in s.names :: GoodName(s.prefix, s.names, s.conns.Keys, n))
    && s.held <= s.conns.Keys
  }

  lemma ConnsGood(s: Server, c: Id)
    requires SysInv(s) && c in s.conns
    ensures Present(s, c) && GoodConn(s, c)
  {
  }

  lemma LoopsGood(s: Server, l: LoopId)
    requires SysInv(s) && l in s.loops
    ensures GoodLoop(s.conns, s.home, l, s.loops[l])
  {
  }

  // Counting functors

  lemma CountPush(q: Queue<Functor>, f: Functor, g: Functor)
    ensures Count(q.Push(f), g) == Count(q, g) + One(f == g)
  {
  }

  lemma CountRunNext(q: Queue<Functor>, g: Functor)
    requires q.batch != []
    ensures Count(q, g) == Count(q.RunNext(), g) + One(q.batch[0] == g)
  {
    assert q.batch == [q.batch[0]] + q.batch[1..];
  }

  // One loop changes

  lemma LoopKeeps(s: Server, l: LoopId, loop: Loop)
    requires SysInv(s) && l in s.loops && GoodLoop(s.conns, s.home, l, loop)
    requires forall d | d in s.conns && d in s.home :: Settled(loop, l, d, s.conns[d], s.home[d])
    requires forall d | d in s.conns && d in s.home && s.home[d] == l ::
               Listing(Name(s.prefix, d) in s.names, s.conns[d], loop.q, d)
    ensures SysInv(WithLoop(s, l, loop))
  {
    hide Settled, Agrees, GoodLoop, GoodName, Listing;
    var s' := WithLoop(s, l, loop);
    forall d | d in s'.conns ensures Present(s', d) && GoodConn(s', d) {
      ConnsGood(s, d);
    }
  }

  /** A loop moves on without touching its queue. */
  lemma PhaseKeeps(s: Server, l: LoopId, phase: Phase)
    requires SysInv(s) && l in s.loops && GoodPhase(s.conns, s.home, l, phase)
    requires forall c | c in s.conns && AtCallback(phase, c) :: s.conns[c].state.Disconnected?
    requires !phase.Running? ==> !s.loops[l].phase.Running?
    ensures SysInv(WithPhase(s, l, phase))
  {
    hide SysInv, Routed, Watched, Listing, GoodPhase, AtCallback, GoodQueue, Agrees;
    var loop := s.loops[l].(phase := phase);
    LoopsGood(s, l);
    forall d | d in s.conns && d in s.home
      ensures Settled(loop, l, d, s.conns[d], s.home[d])
      ensures s.home[d] == l ==> Listing(Name(s.prefix, d) in s.names, s.conns[d], loop.q, d)
    {
      ConnsGood(s, d);
      assert Settled(s.loops[l], l, d, s.conns[d], s.home[d]);
    }
    LoopKeeps(s, l, loop);
  }

  /** The queue changes in a way that keeps every functor where it belongs. */
  lemma QueueKeeps(s: Server, l: LoopId, phase: Phase, q: Queue<Functor>)
    requires SysInv(s) && l in s.loops && GoodQueue(s.conns.Keys, q)
    requires phase == s.loops[l].phase || phase.Running? || phase.InPoll?
    requires !phase.Running? ==> q.batch == [] && q.ran == []
    requires forall d | d in s.conns && d in s.home ::
      && Routed(q, l, d, s.conns[d], s.home[d])
      && (s.home[d] == l ==> Listing(Name(s.prefix, d) in s.names, s.conns[d], q, d))
    ensures SysInv(WithLoop(s, l, s.loops[l].(phase := phase, q := q)))
  {
    hide SysInv, Routed, Watched, Listing, GoodQueue, Agrees;
    LoopsGood(s, l);
    var loop := s.loops[l].(phase := phase, q := q);
    forall d | d in s.conns && d in s.home ensures Settled(loop, l, d, s.conns[d], s.home[d]) {
      ConnsGood(s, d);
      assert Settled(s.loops[l], l, d, s.conns[d], s.home[d]);
    }
    LoopKeeps(s, l, loop);
  }

  lemma RoutedOf(s: Server, l: LoopId, d: Id)
    requires SysInv(s) && l in s.loops && d in s.conns
    ensures Present(s, d) && Settled(s.loops[l], l, d, s.conns[d], s.home[d])
    ensures Listing(Name(s.prefix, d) in s.names, s.conns[d], s.loops[s.home[d]].q, d)
  {
    hide Settled, Agrees, Listing;
    ConnsGood(s, d);
  }

  lemma PushKnown(known: set<Id>, q: Queue<Functor>, f: Functor)
    requires GoodQueue(known, q) && f.c in known
    ensures GoodQueue(known, q.Push(f))
  {
  }

  lemma RunNextKnown(known: set<Id>, q: Queue<Functor>)
    requires GoodQueue(known, q) && q.batch != []
    ensures q.batch[0].c in known && GoodQueue(known, q.RunNext())
  {
    assert q.batch[0] in q.batch + q.pending + q.ran;
    forall f | f in q.RunNext().batch + q.RunNext().pending + q.RunNext().ran ensures f in q.batch + q.pending + q.ran {
    }
  }

  /** A notice, or a removal of a closed connection, is queued. */
  lemma PushKeeps(s: Server, l: LoopId, f: Functor)
    requires SysInv(s) && l in s.loops && f.c in s.conns
    requires f.RunNotice? || (f.RunRemove? && l == BASE && s.conns[f.c].state.Disconnected?)
    ensures SysInv(Queued(s, l, f))
  {
    hide SysInv, Count, Agrees, GoodPhase;
    var q := s.loops[l].q.Push(f);
    LoopsGood(s, l);
    PushKnown(s.conns.Keys, s.loops[l].q, f);
    forall d | d in s.conns && d in s.home
      ensures Routed(q, l, d, s.conns[d], s.home[d])
      ensures s.home[d] == l ==> Listing(Name(s.prefix, d) in s.names, s.conns[d], q, d)
    {
      RoutedOf(s, l, d);
      PushRoutes(s.loops[l].q, l, d, s.conns[d], s.home[d], f);
    }
    QueueKeeps(s, l, s.loops[l].phase, q);
  }

  lemma PushRoutes(q: Queue<Functor>, l: LoopId, d: Id, conn: Conn, home: LoopId, f: Functor)
    requires Routed(q, l, d, conn, home)
    requires f.c != d || f.RunNotice? || (f.RunRemove? && l == BASE && conn.state.Disconnected?)
          || (f.RunDestroyed? && l == home && conn.state.Disconnected?)
    ensures Routed(q.Push(f), l, d, conn, home)
    ensures Count(q.Push(f), RunDestroyed(d)) == Count(q, RunDestroyed(d)) + One(f == RunDestroyed(d))
  {
    CountPush(q, f, RunEstablished(d));
    CountPush(q, f, RunRemove(d));
    CountPush(q, f, RunDestroyed(d));
  }

  lemma RunNextRoutes(q: Queue<Functor>, l: LoopId, d: Id, conn: Conn, home: LoopId)
    requires q.batch != [] && Routed(q, l, d, conn, home) && q.batch[0] != RunEstablished(d)
    ensures Routed(q.RunNext(), l, d, conn, home)
    ensures Count(q.RunNext(), RunDestroyed(d)) + One(q.batch[0] == RunDestroyed(d)) == Count(q, RunDestroyed(d))
  {
    CountRunNext(q, RunEstablished(d));
    CountRunNext(q, RunRemove(d));
    CountRunNext(q, RunDestroyed(d));
  }

  /** A functor leaves the batch: a notice, a removal, or the destruction of a destroyed connection. */
  lemma PopKeeps(s: Server, l: LoopId)
    requires SysInv(s) && l in s.loops && s.loops[l].q.batch != []
    requires var f := s.loops[l].q.batch[0];
      !f.RunEstablished? && (f.RunDestroyed? ==> f.c in s.conns && Gone(s.conns[f.c]))
    ensures SysInv(Popped(s, l))
  {
    hide SysInv, Count, Agrees, GoodPhase;
    var q := s.loops[l].q.RunNext();
    LoopsGood(s, l);
    RunNextKnown(s.conns.Keys, s.loops[l].q);
    forall d | d in s.conns && d in s.home
      ensures Routed(q, l, d, s.conns[d], s.home[d])
      ensures s.home[d] == l ==> Listing(Name(s.prefix, d) in s.names, s.conns[d], q, d)
    {
      RoutedOf(s, l, d);
      RunNextRoutes(s.loops[l].q, l, d, s.conns[d], s.home[d]);
    }
    QueueKeeps(s, l, s.loops[l].phase, q);
  }

  /** A closed connection goes off the map, and its destroying functor is queued. */
  lemma RemoveKeeps(s: Server, c: Id)
    requires SysInv(s) && c in s.conns && s.conns[c].state.Disconnected?
    ensures Present(s, c) && SysInv(RemoveConnectionInLoop(s, c))
  {
    hide SysInv, Count, Agrees, GoodPhase, Name, Routed, Watched, Listing, GoodLoop;
    ConnsGood(s, c);
    var l := s.home[c];
    var s' := RemoveConnectionInLoop(s, c);
    PushedLoopGood(s, l, RunDestroyed(c));
    forall d | d in s'.conns ensures Present(s', d) && GoodConn(s', d) {
      ConnsGood(s, d);
      RemovedListing(s, c, d);
      forall l' | l' in s'.loops ensures Settled(s'.loops[l'], l', d, s'.conns[d], s'.home[d]) {
        assert Settled(s.loops[l'], l', d, s.conns[d], s.home[d]);
        if l' == l { PushRoutes(s.loops[l].q, l, d, s.conns[d], s.home[d], RunDestroyed(c)); }
      }
    }
    RemovedRest(s, c);
  }

  lemma PushedLoopGood(s: Server, l: LoopId, f: Functor)
    requires SysInv(s) && l in s.loops && f.c in s.conns
    ensures GoodLoop(s.conns, s.home, l, s.loops[l].(q := s.loops[l].q.Push(f)))
  {
    hide SysInv, GoodPhase, GoodQueue;
    LoopsGood(s, l);
    PushKnown(s.conns.Keys, s.loops[l].q, f);
  }

  lemma RemovedListing(s: Server, c: Id, d: Id)
    requires SysInv(s) && c in s.conns && d in s.conns && Present(s, c) && Present(s, d)
    ensures var q := s.loops[s.home[c]].q;
      Listing(Name(s.prefix, d) in s.names - {Name(s.prefix, c)}, s.conns[d],
              if s.home[d] == s.home[c] then q.Push(RunDestroyed(c)) else s.loops[s.home[d]].q, d)
  {
    hide Name, Count, Agrees, GoodLoop, Settled;
    RoutedOf(s, s.home[d], d);
    CountPush(s.loops[s.home[c]].q, RunDestroyed(c), RunDestroyed(d));
    if d != c && Name(s.prefix, d) == Name(s.prefix, c) { NamesDiffer(s.prefix, c, d); }
  }

  lemma RemovedRest(s: Server, c: Id)
    requires SysInv(s) && c in s.conns && Present(s, c)
    requires GoodLoop(s.conns, s.home, s.home[c], s.loops[s.home[c]].(q := s.loops[s.home[c]].q.Push(RunDestroyed(c))))
    requires var s' := RemoveConnectionInLoop(s, c); forall d | d in s'.conns :: Present(s', d) && GoodConn(s', d)
    ensures SysInv(RemoveConnectionInLoop(s, c))
  {
    hide GoodConn, GoodLoop, Name;
    var s' := RemoveConnectionInLoop(s, c);
    forall n | n in s'.names ensures GoodName(s'.prefix, s'.names, s'.conns.Keys, n) {
      assert GoodName(s.prefix, s.names, s.conns.Keys, n);
    }
  }

  // One connection changes

  /** A phase keeps unless it has to do with a connection whose channel goes. */
  lemma GoodLoopFrame(conns: map<Id, Conn>, home: map<Id, LoopId>, l: LoopId, loop: Loop, c: Id, conn: Conn)
    requires GoodLoop(conns, home, l, loop) && c in conns && c in home
    requires conn.chan.index != New || conns[c].chan.index == New || home[c] != l || loop.phase.Running?
    ensures GoodLoop(conns[c := conn], home, l, loop)
  {
    assert conns[c := conn].Keys == conns.Keys;
  }

  lemma WatchedAfter(interest: map<Id, Events>, c: Id, before: Conn, after: Conn, home: LoopId)
    requires Watched(interest, home, c, before, home)
    ensures Watched(KernelAfter(interest, c, before.chan, after.chan), home, c, after, home)
    ensures forall d | d != c ::
      && (d in KernelAfter(interest, c, before.chan, after.chan) <==> d in interest)
      && (d in interest ==> KernelAfter(interest, c, before.chan, after.chan)[d] == interest[d])
  {
  }

  /** Elsewhere, a connection that stays closed if it was has nothing new. */
  lemma SettledElsewhere(loop: Loop, l: LoopId, c: Id, before: Conn, after: Conn, home: LoopId)
    requires Settled(loop, l, c, before, home) && l != home
    requires before.state.Disconnected? ==> after.state.Disconnected?
    ensures Settled(loop, l, c, after, home)
  {
  }

  /** What may become of a connection and of the functors of its loop. */
  ghost predicate Change(s: Server, c: Id, conn: Conn, q: Queue<Functor>)
    requires Present(s, c)
  {
    var (l, before) := (s.home[c], s.conns[c]);
    && Agrees(conn) && GoodQueue(s.conns.Keys, q)
    && (before.state.Disconnected? ==> conn.state.Disconnected?)
    && (conn.chan.index != New || before.chan.index == New || s.loops[l].phase.Running?)
    && (!s.loops[l].phase.Running? ==> q.batch == [] && q.ran == [])
    && Routed(q, l, c, conn, l) && Listing(Name(s.prefix, c) in s.names, conn, q, c)
    && forall d | d in s.conns && d in s.home && d != c ::
         && Routed(q, l, d, s.conns[d], s.home[d])
         && Count(q, RunDestroyed(d)) == Count(s.loops[l].q, RunDestroyed(d))
  }

  function Changed(s: Server, c: Id, conn: Conn, q: Queue<Functor>): Server
    requires Present(s, c)
  {
    var s' := WithConn(s, c, conn);
    WithLoop(s', s.home[c], s'.loops[s.home[c]].(q := q))
  }

  lemma ChangeKeeps(s: Server, c: Id, conn: Conn, q: Queue<Functor>)
    requires SysInv(s) && c in s.conns && Present(s, c) && Change(s, c, conn, q)
    ensures SysInv(Changed(s, c, conn, q))
  {
    hide SysInv, Count, Agrees, GoodPhase, Name, Watched, KernelAfter, Routed, GoodLoop, Settled, GoodQueue, Listing;
    var s' := Changed(s, c, conn, q);
    forall d | d in s'.conns ensures Present(s', d) && GoodConn(s', d) {
      ConnsGood(s, d);
      ChangedListing(s, c, conn, q, d);
      forall l | l in s'.loops ensures Settled(s'.loops[l], l, d, s'.conns[d], s'.home[d]) {
        ChangedSettled(s, c, conn, q, d, l);
      }
    }
    forall l | l in s'.loops ensures GoodLoop(s'.conns, s'.home, l, s'.loops[l]) {
      ChangedLoop(s, c, conn, q, l);
    }
    ChangedRest(s, c, conn, q);
  }

  lemma ChangedListing(s: Server, c: Id, conn: Conn, q: Queue<Functor>, d: Id)
    requires SysInv(s) && c in s.conns && d in s.conns && Present(s, c) && Present(s, d) && Change(s, c, conn, q)
    ensures var s' := Changed(s, c, conn, q);
      Listing(Name(s'.prefix, d) in s'.names, s'.conns[d], s'.loops[s'.home[d]].q, d)
  {
    hide SysInv, Count, Agrees, GoodPhase, Name, KernelAfter, Routed, Settled, GoodQueue;
    RoutedOf(s, s.home[d], d);
  }

  lemma ChangedSettled(s: Server, c: Id, conn: Conn, q: Queue<Functor>, d: Id, l: LoopId)
    requires SysInv(s) && c in s.conns && d in s.conns && Present(s, c) && Present(s, d) && l in s.loops
    requires Change(s, c, conn, q)
    ensures var s' := Changed(s, c, conn, q); Settled(s'.loops[l], l, d, s'.conns[d], s'.home[d])
  {
    hide SysInv, Count, Agrees, GoodPhase, Name, KernelAfter, Routed, GoodQueue, Listing;
    RoutedOf(s, l, d);
    RoutedOf(s, s.home[c], c);
    WatchedAfter(s.loops[s.home[c]].interest, c, s.conns[c], conn, s.home[c]);
    if d == c && l != s.home[c] { SettledElsewhere(s.loops[l], l, c, s.conns[c], conn, s.home[c]); }
  }

  lemma ChangedLoop(s: Server, c: Id, conn: Conn, q: Queue<Functor>, l: LoopId)
    requires SysInv(s) && c in s.conns && Present(s, c) && l in s.loops && Change(s, c, conn, q)
    ensures var s' := Changed(s, c, conn, q); GoodLoop(s'.conns, s'.home, l, s'.loops[l])
  {
    hide SysInv, Count, Agrees, Name, KernelAfter, Routed, Listing, Settled, Watched;
    LoopsGood(s, l);
    RoutedOf(s, s.home[c], c);
    SettledGives(s.loops[s.home[c]], s.home[c], c, s.conns[c], s.home[c]);
    WatchedAfter(s.loops[s.home[c]].interest, c, s.conns[c], conn, s.home[c]);
    GoodLoopFrame(s.conns, s.home, l, s.loops[l], c, conn);
    assert s.conns[c := conn].Keys == s.conns.Keys;
  }

  lemma SettledGives(loop: Loop, l: LoopId, c: Id, conn: Conn, home: LoopId)
    requires Settled(loop, l, c, conn, home)
    ensures Routed(loop.q, l, c, conn, home) && Watched(loop.interest, l, c, conn, home)
    ensures AtCallback(loop.phase, c) ==> conn.state.Disconnected?
  {
  }

  lemma ChangedRest(s: Server, c: Id, conn: Conn, q: Queue<Functor>)
    requires SysInv(s) && c in s.conns && Present(s, c)
    requires var s' := Changed(s, c, conn, q);
      && (forall d | d in s'.conns :: Present(s', d) && GoodConn(s', d))
      && (forall l | l in s'.loops :: GoodLoop(s'.conns, s'.home, l, s'.loops[l]))
    ensures SysInv(Changed(s, c, conn, q))
  {
    hide GoodConn, GoodLoop, Name, KernelAfter;
    var s' := Changed(s, c, conn, q);
    assert s'.conns.Keys == s.conns.Keys;
    forall n | n in s'.names ensures GoodName(s'.prefix, s'.names, s'.conns.Keys, n) {
      assert GoodName(s.prefix, s.names, s.conns.Keys, n);
    }
  }

  /** A channel is unknown to its poller before it is established and after it is removed. */
  lemma AgreesIndex(conn: Conn)
    requires Agrees(conn)
    ensures conn.chan.index == New <==> conn.state.Connecting? || Gone(conn)
  {
  }

  /** A connection changes without opening, reopening or being destroyed. */
  lemma ConnKeeps(s: Server, c: Id, conn: Conn)
    requires SysInv(s) && c in s.conns && Agrees(conn)
    requires conn.state.Connecting? <==> s.conns[c].state.Connecting?
    requires s.conns[c].state.Disconnected? ==> conn.state.Disconnected?
    requires conn.chan.index == New <==> s.conns[c].chan.index == New
    ensures Present(s, c) && SysInv(WithConn(s, c, conn))
  {
    hide SysInv, Count, Agrees, Name, KernelAfter, Settled;
    ConnsGood(s, c);
    var l := s.home[c];
    LoopsGood(s, l);
    var q := s.loops[l].q;
    RoutedOf(s, l, c);
    SettledGives(s.loops[l], l, c, s.conns[c], l);
    forall d | d in s.conns && d in s.home && d != c ensures Routed(q, l, d, s.conns[d], s.home[d]) {
      RoutedOf(s, l, d);
      SettledGives(s.loops[l], l, d, s.conns[d], s.home[d]);
    }
    AgreesIndex(s.conns[c]);
    AgreesIndex(conn);
    ChangeKeeps(s, c, conn, q);
    assert Changed(s, c, conn, q) == WithConn(s, c, conn);
  }

  /** The waiting functor of a new connection runs. */
  lemma EstablishedKeeps(s: Server, l: LoopId)
    requires SysInv(s) && l in s.loops && s.loops[l].phase.Running?
    requires s.loops[l].q.batch != [] && s.loops[l].q.batch[0].RunEstablished?
    ensures var c := s.loops[l].q.batch[0].c;
      Present(s, c) && s.home[c] == l && SysInv(WithConn(Popped(s, l), c, ConnectEstablished(s.conns[c])))
  {
    hide SysInv, Count, Agrees, Name, KernelAfter, Settled, ConnectEstablished, GoodQueue, GoodPhase;
    var q0 := s.loops[l].q;
    var c, q := q0.batch[0].c, q0.RunNext();
    LoopsGood(s, l);
    RunNextKnown(s.conns.Keys, q0);
    RoutedOf(s, l, c);
    SettledGives(s.loops[l], l, c, s.conns[c], s.home[c]);
    EstablishedRoutes(q0, l, c, s.conns[c], s.home[c]);
    AgreesEstablish(s, c);
    forall d | d in s.conns && d in s.home && d != c
      ensures Routed(q, l, d, s.conns[d], s.home[d]) && Count(q, RunDestroyed(d)) == Count(q0, RunDestroyed(d))
    {
      RoutedOf(s, l, d);
      SettledGives(s.loops[l], l, d, s.conns[d], s.home[d]);
      RunNextRoutes(q0, l, d, s.conns[d], s.home[d]);
    }
    ChangeKeeps(s, c, ConnectEstablished(s.conns[c]), q);
    assert Changed(s, c, ConnectEstablished(s.conns[c]), q)
        == WithConn(Popped(s, l), c, ConnectEstablished(s.conns[c]));
  }

  lemma EstablishedRoutes(q: Queue<Functor>, l: LoopId, c: Id, conn: Conn, home: LoopId)
    requires q.batch != [] && q.batch[0] == RunEstablished(c) && Routed(q, l, c, conn, home)
    ensures conn.state.Connecting? && l == home
    ensures Routed(q.RunNext(), l, c, ConnectEstablished(conn), home)
    ensures Count(q.RunNext(), RunDestroyed(c)) == Count(q, RunDestroyed(c)) == 0
  {
    CountRunNext(q, RunEstablished(c));
    CountRunNext(q, RunRemove(c));
    CountRunNext(q, RunDestroyed(c));
  }

  lemma AgreesEstablish(s: Server, c: Id)
    requires SysInv(s) && c in s.conns && s.conns[c].state.Connecting?
    ensures var conn := ConnectEstablished(s.conns[c]);
      Agrees(conn) && conn.chan.index != New && conn.Open() && !Gone(s.conns[c])
  {
    hide SysInv, Core;
    ConnsGood(s, c);
    EstablishKeeps(s.conns[c]);
    CoreConnecting(s.conns[c]);
  }

  lemma CoreConnecting(conn: Conn)
    requires Core(conn) && conn.state.Connecting?
    ensures conn.chan == FRESH_CHAN
  {
  }

  /** A destroying functor runs: the first one takes the channel from the poller, and any further one
      finds it gone. */
  lemma DestroyedKeeps(s: Server, l: LoopId)
    requires SysInv(s) && l in s.loops && s.loops[l].phase.Running?
    requires s.loops[l].q.batch != [] && s.loops[l].q.batch[0].RunDestroyed?
    ensures var c := s.loops[l].q.batch[0].c;
      Present(s, c) && s.home[c] == l && SysInv(WithConn(Popped(s, l), c, ConnectDestroyed(s.conns[c])))
      && Gone(ConnectDestroyed(s.conns[c]))
  {
    hide SysInv, Count, Agrees, Name, KernelAfter, Settled, ConnectDestroyed, GoodQueue, GoodPhase;
    var q0 := s.loops[l].q;
    var c, q := q0.batch[0].c, q0.RunNext();
    LoopsGood(s, l);
    RunNextKnown(s.conns.Keys, q0);
    var conn := s.conns[c];
    RoutedOf(s, l, c);
    SettledGives(s.loops[l], l, c, conn, s.home[c]);
    DestroyedRoutes(q0, l, c, conn, s.home[c]);
    AgreesDestroy(s, c);
    forall d | d in s.conns && d in s.home && d != c
      ensures Routed(q, l, d, s.conns[d], s.home[d]) && Count(q, RunDestroyed(d)) == Count(q0, RunDestroyed(d))
    {
      RoutedOf(s, l, d);
      SettledGives(s.loops[l], l, d, s.conns[d], s.home[d]);
      RunNextRoutes(q0, l, d, s.conns[d], s.home[d]);
    }
    ChangeKeeps(s, c, ConnectDestroyed(conn), q);
    assert Changed(s, c, ConnectDestroyed(conn), q) == WithConn(Popped(s, l), c, ConnectDestroyed(conn));
  }

  lemma DestroyedRoutes(q: Queue<Functor>, l: LoopId, c: Id, conn: Conn, home: LoopId)
    requires q.batch != [] && q.batch[0] == RunDestroyed(c) && Routed(q, l, c, conn, home)
    ensures conn.state.Disconnected? && l == home && Count(q, RunDestroyed(c)) > 0
    ensures Routed(q.RunNext(), l, c, ConnectDestroyed(conn), home)
  {
    CountRunNext(q, RunEstablished(c));
    CountRunNext(q, RunRemove(c));
    CountRunNext(q, RunDestroyed(c));
  }

  lemma AgreesDestroy(s: Server, c: Id)
    requires SysInv(s) && c in s.conns && s.conns[c].state.Disconnected?
    ensures Agrees(ConnectDestroyed(s.conns[c])) && Gone(ConnectDestroyed(s.conns[c]))
  {
    hide SysInv, Core;
    ConnsGood(s, c);
    DestroyKeeps(s.conns[c]);
  }

  // Polling, dispatching and the functor batch

  lemma PollReturnsKeeps(s: Server, l: LoopId, active: seq<(Id, Revents)>)
    requires SysInv(s) && CanDo(s, PollReturns(l, active))
    ensures SysInv(Do(s, PollReturns(l, active)))
  {
    hide SysInv, Agrees, Listing, Routed;
    LoopsGood(s, l);
    forall i | 0 <= i < |active| ensures Here(s.conns, s.home, l, active[i].0) {
      WatchedIsHere(s, l, active[i].0);
    }
    PhaseKeeps(s, l, Dispatching(active));
  }

  /** The kernel watches only connections of the loop whose channel is with the poller. */
  lemma WatchedIsHere(s: Server, l: LoopId, c: Id)
    requires SysInv(s) && l in s.loops && c in s.loops[l].interest
    ensures Here(s.conns, s.home, l, c) && s.conns[c].chan.index == Added
    ensures s.loops[l].interest[c] == s.conns[c].chan.events
  {
    hide SysInv, Agrees, Listing, Routed, GoodPhase;
    LoopsGood(s, l);
    RoutedOf(s, l, c);
  }

  lemma NextChannelKeeps(s: Server, l: LoopId)
    requires SysInv(s) && CanDo(s, NextChannel(l))
    ensures SysInv(Do(s, NextChannel(l)))
  {
    hide SysInv;
    LoopsGood(s, l);
    var rest := s.loops[l].phase.rest;
    PhaseKeeps(s, l, Handling(rest[0].0, rest[0].1, HangUp, rest[1..]));
  }

  lemma StartFunctorsKeeps(s: Server, l: LoopId)
    requires SysInv(s) && CanDo(s, StartFunctors(l))
    ensures SysInv(Do(s, StartFunctors(l)))
  {
    hide SysInv, Count, Agrees;
    var q := s.loops[l].q;
    LoopsGood(s, l);
    assert q.batch + q.pending + q.ran == q.Swap().batch + q.Swap().pending + q.Swap().ran;
    SameCountsKeep(s, l, Running, q.Swap());
  }

  lemma EndFunctorsKeeps(s: Server, l: LoopId)
    requires SysInv(s) && CanDo(s, EndFunctors(l))
    ensures SysInv(Do(s, EndFunctors(l)))
  {
    hide SysInv, Agrees;
    var q := s.loops[l].q;
    LoopsGood(s, l);
    assert forall f | f in q.Finish().batch + q.Finish().pending + q.Finish().ran :: f in q.batch + q.pending + q.ran;
    SameCountsKeep(s, l, InPoll, q.Finish());
  }

  lemma SameCountsKeep(s: Server, l: LoopId, phase: Phase, q: Queue<Functor>)
    requires SysInv(s) && l in s.loops && GoodQueue(s.conns.Keys, q)
    requires phase.Running? || (phase.InPoll? && q.batch == [] && q.ran == [])
    requires q.batch + q.pending == s.loops[l].q.batch + s.loops[l].q.pending
    ensures SysInv(WithLoop(s, l, s.loops[l].(phase := phase, q := q)))
  {
    hide SysInv, Agrees, GoodQueue, Settled, Count;
    forall g ensures Count(q, g) == Count(s.loops[l].q, g) { SameCount(q, s.loops[l].q, g); }
    forall d | d in s.conns && d in s.home
      ensures Routed(q, l, d, s.conns[d], s.home[d])
      ensures s.home[d] == l ==> Listing(Name(s.prefix, d) in s.names, s.conns[d], q, d)
    {
      RoutedOf(s, l, d);
      SettledGives(s.loops[l], l, d, s.conns[d], s.home[d]);
    }
    QueueKeeps(s, l, phase, q);
  }

  lemma SameCount(p: Queue<Functor>, q: Queue<Functor>, g: Functor)
    requires p.batch + p.pending == q.batch + q.pending
    ensures Count(p, g) == Count(q, g)
  {
    assert multiset(p.batch + p.pending) == multiset(p.batch) + multiset(p.pending);
    assert multiset(q.batch + q.pending) == multiset(q.batch) + multiset(q.pending);
    assert Count(p, g) == multiset(p.batch + p.pending)[g];
  }

  lemma RunFunctorKeeps(s: Server, l: LoopId)
    requires SysInv(s) && CanDo(s, RunFunctor(l))
    ensures SysInv(Do(s, RunFunctor(l)))
  {
    hide SysInv, ConnectEstablished, ConnectDestroyed, WithConn, RemoveConnectionInLoop;
    match s.loops[l].q.batch[0]
    case RunEstablished(_) => EstablishedKeeps(s, l);
    case RunDestroyed(_) => DestroyedKeeps(s, l);
    case RunNotice(_, _) => PopKeeps(s, l);
    case RunRemove(c) =>
      RemoveWaits(s, l, c);
      PopKeeps(s, l);
      RemoveKeeps(Popped(s, l), c);
  }

  lemma RemoveWaits(s: Server, l: LoopId, c: Id)
    requires SysInv(s) && l in s.loops && s.loops[l].q.batch != [] && s.loops[l].q.batch[0] == RunRemove(c)
    ensures c in s.conns && s.conns[c].state.Disconnected?
  {
    hide SysInv, Agrees, Listing, Watched;
    LoopsGood(s, l);
    RunNextKnown(s.conns.Keys, s.loops[l].q);
    RoutedOf(s, l, c);
  }

  // Handling one channel

  /** What is known of the channel being handled. */
  lemma HandledConn(s: Server, l: LoopId)
    requires SysInv(s) && HandlingOf(s, l)
    ensures var p := s.loops[l].phase;
      && GoodPhase(s.conns, s.home, l, p) && Agrees(s.conns[p.c])
      && s.conns[p.c].chan.index != New
      && (AtCallback(p, p.c) ==> s.conns[p.c].state.Disconnected?)
  {
    hide SysInv, Agrees, Routed, Watched, Listing;
    var p := s.loops[l].phase;
    LoopsGood(s, l);
    ConnsGood(s, p.c);
    RoutedOf(s, l, p.c);
  }

  /** A connection event other than establishing and destroying. */
  lemma EventKeeps(s: Server, c: Id, op: Op)
    requires SysInv(s) && c in s.conns && Enabled(s.conns[c], op) && !op.Establish? && !op.Destroy?
    ensures Present(s, c) && SysInv(WithConn(s, c, Apply(s.conns[c], op)))
  {
    hide SysInv, Agrees, Apply, Enabled;
    ConnsGood(s, c);
    AgreesEvent(s.conns[c], op);
    ConnKeeps(s, c, Apply(s.conns[c], op));
  }

  lemma AgreesEvent(conn: Conn, op: Op)
    requires Agrees(conn) && Enabled(conn, op) && !op.Establish? && !op.Destroy?
    ensures Agrees(Apply(conn, op))
    ensures Apply(conn, op).state.Connecting? <==> conn.state.Connecting?
    ensures conn.state.Disconnected? ==> Apply(conn, op).state.Disconnected?
    ensures Apply(conn, op).chan.index == New <==> conn.chan.index == New
  {
    ApplyKeeps(conn, op);
    hide Graceful, Wire, Kept;
    EventIndex(conn, op);
  }

  lemma EventIndex(conn: Conn, op: Op)
    requires Core(conn) && (conn.Open() ==> conn.chan.index == Added)
    requires Enabled(conn, op) && !op.Establish? && !op.Destroy?
    ensures var after := Apply(conn, op);
      && (after.state.Connecting? <==> conn.state.Connecting?) && after.tied == conn.tied
      && (conn.state.Disconnected? ==> after.state.Disconnected?)
      && (after.chan.index == New <==> conn.chan.index == New)
      && (after.Open() ==> conn.Open() && after.chan.index == Added)
  {
    hide Graceful, Wire, Kept;
  }

  lemma TestHangUpKeeps(s: Server, l: LoopId)
    requires SysInv(s) && CanDo(s, TestHangUp(l))
    ensures SysInv(Do(s, TestHangUp(l)))
  {
    hide SysInv, Agrees, KernelAfter;
    var p := s.loops[l].phase;
    HandledConn(s, l);
    if ClosesFirst(p.re) {
      EventKeeps(s, p.c, OnClose);
      ClosedThen(s, l, HandleClose(s.conns[p.c]), p.(stage := ClosedByHangUp));
    } else {
      PhaseKeeps(s, l, p.(stage := Reading));
    }
  }

  /** After its connection has changed, a handler goes to the next stage: to a close callback only if
      the connection is closed. */
  lemma ClosedThen(s: Server, l: LoopId, conn: Conn, phase: Phase)
    requires HandlingOf(s, l) && phase.Handling?
    requires var p := s.loops[l].phase; phase == p.(stage := phase.stage)
    requires var p := s.loops[l].phase; SysInv(WithConn(s, p.c, conn))
    requires AtCallback(phase, phase.c) ==> conn.state.Disconnected?
    ensures SysInv(WithPhase(WithConn(s, s.loops[l].phase.c, conn), l, phase))
  {
    hide SysInv, KernelAfter;
    var s1 := WithConn(s, s.loops[l].phase.c, conn);
    LoopsGood(s1, l);
    PhaseKeeps(s1, l, phase);
  }

  lemma ReadChannelKeeps(s: Server, l: LoopId, r: ReadResult)
    requires SysInv(s) && CanDo(s, ReadChannel(l, r))
    ensures SysInv(Do(s, ReadChannel(l, r)))
  {
    hide SysInv, Agrees, HandleClose, KernelAfter;
    var p := s.loops[l].phase;
    HandledConn(s, l);
    if Reads(p.re) {
      EventKeeps(s, p.c, OnRead(r));
      ReadCloses(s.conns[p.c], r);
      ClosedThen(s, l, HandleRead(s.conns[p.c], r), p.(stage := if r == Got("") then ClosedByRead else Writing));
    } else {
      PhaseKeeps(s, l, p.(stage := Writing));
    }
  }

  lemma ReadCloses(conn: Conn, r: ReadResult)
    ensures r == Got("") ==> HandleRead(conn, r).state.Disconnected?
  {
  }

  lemma CloseCallbackKeeps(s: Server, l: LoopId)
    requires SysInv(s) && CanDo(s, CloseCallback(l))
    ensures SysInv(Do(s, CloseCallback(l)))
  {
    hide SysInv, Agrees, Name;
    var p := s.loops[l].phase;
    HandledConn(s, l);
    PhaseKeeps(s, l, AfterCallback(p));
    var s1 := WithPhase(s, l, AfterCallback(p));
    if l == BASE {
      RemoveKeeps(s1, p.c);
    } else {
      PushKeeps(s1, BASE, RunRemove(p.c));
    }
  }

  lemma {:induction false} NoticesKeep(s: Server, l: LoopId, c: Id, notices: seq<Notice>)
    requires SysInv(s) && l in s.loops && c in s.conns
    ensures SysInv(NotifyAll(s, l, c, notices))
    decreases |notices|
  {
    hide SysInv;
    if notices == [] {
    } else {
      PushKeeps(s, l, RunNotice(c, notices[0]));
      NoticesKeep(Queued(s, l, RunNotice(c, notices[0])), l, c, notices[1..]);
    }
  }

  lemma WriteChannelKeeps(s: Server, l: LoopId, w: WriteResult)
    requires SysInv(s) && CanDo(s, WriteChannel(l, w))
    ensures SysInv(Do(s, WriteChannel(l, w)))
  {
    hide SysInv, Agrees, HandleWrite, KernelAfter;
    var p := s.loops[l].phase;
    HandledConn(s, l);
    PhaseKeeps(s, l, Dispatching(p.rest));
    if p.re.out {
      var s1 := WithPhase(s, l, Dispatching(p.rest));
      var (conn, notices) := HandleWrite(s.conns[p.c], w);
      EventKeeps(s1, p.c, OnWrite(w));
      NoticesKeep(WithConn(s1, p.c, conn), l, p.c, notices);
    }
  }

  lemma UserCallKeeps(s: Server, c: Id, op: Op)
    requires SysInv(s) && CanDo(s, UserCall(c, op))
    ensures SysInv(Do(s, UserCall(c, op)))
  {
    hide SysInv, Agrees, Apply, NoticesOf, Referenced, KernelAfter, Enabled;
    EventKeeps(s, c, op);
    NoticesKeep(WithConn(s, c, Apply(s.conns[c], op)), s.home[c], c, NoticesOf(s.conns[c], op));
  }

  // New connections

  /** The next connection's name is not on the map, so inserting it overwrites nothing. */
  lemma InsertIsFresh(s: Server)
    requires SysInv(s)
    ensures Name(s.prefix, s.nextConnId) !in s.names && s.nextConnId !in s.conns
  {
    hide Name, Agrees, Settled, Listing, GoodLoop;
    var name := Name(s.prefix, s.nextConnId);
    forall n | n in s.names ensures n != name {
      assert GoodName(s.prefix, s.names, s.conns.Keys, n);
      assert GoodConn(s, s.names[n]);
      if n == name { NamesDiffer(s.prefix, s.nextConnId, s.names[n]); }
    }
    forall c | c in s.conns ensures c != s.nextConnId { assert GoodConn(s, c); }
  }

  /** A connection is created and put on the map; `q` is the queue of its loop afterwards. */
  function WithNew(s: Server, conn: Conn, h: LoopId, q: Queue<Functor>): Server
    requires h in s.loops
  {
    var c := s.nextConnId;
    var loop := s.loops[h].(q := q, interest := KernelAfter(s.loops[h].interest, c, FRESH_CHAN, conn.chan));
    s.(nextConnId := c + 1, names := s.names[Name(s.prefix, c) := c], conns := s.conns[c := conn],
       home := s.home[c := h], loops := s.loops[h := loop])
  }

  lemma UnknownSettled(s: Server, l: LoopId, c: Id)
    requires SysInv(s) && l in s.loops && c !in s.conns
    ensures var q := s.loops[l].q;
      && Count(q, RunEstablished(c)) == Count(q, RunRemove(c)) == Count(q, RunDestroyed(c)) == 0
      && c !in s.loops[l].interest && !AtCallback(s.loops[l].phase, c)
  {
    hide SysInv;
    LoopsGood(s, l);
    var q := s.loops[l].q;
    assert forall f | f in q.batch :: f in q.batch + q.pending + q.ran;
    assert forall f | f in q.pending :: f in q.batch + q.pending + q.ran;
  }

  lemma NewSettled(s: Server, conn: Conn, h: LoopId, q: Queue<Functor>, l: LoopId)
    requires SysInv(s) && h in s.loops && l in s.loops && NewConn(s, conn, h, q)
    ensures var s' := WithNew(s, conn, h, q); Settled(s'.loops[l], l, s.nextConnId, conn, h)
  {
    hide SysInv, Count, Agrees, Name;
    InsertIsFresh(s);
    UnknownSettled(s, l, s.nextConnId);
    CountPush(s.loops[h].q, RunEstablished(s.nextConnId), RunEstablished(s.nextConnId));
    CountPush(s.loops[h].q, RunEstablished(s.nextConnId), RunRemove(s.nextConnId));
    CountPush(s.loops[h].q, RunEstablished(s.nextConnId), RunDestroyed(s.nextConnId));
  }

  /** Established at once, or waiting for its functor. */
  ghost predicate NewConn(s: Server, conn: Conn, h: LoopId, q: Queue<Functor>)
    requires h in s.loops
  {
    && Agrees(conn)
    && ((conn.Open() && conn.chan.index == Added && q == s.loops[h].q)
        || (conn.state.Connecting? && conn.chan == FRESH_CHAN && q == s.loops[h].q.Push(RunEstablished(s.nextConnId))))
  }

  lemma NewOthers(s: Server, conn: Conn, h: LoopId, q: Queue<Functor>, d: Id, l: LoopId)
    requires SysInv(s) && h in s.loops && l in s.loops && d in s.conns && NewConn(s, conn, h, q)
    ensures var s' := WithNew(s, conn, h, q);
      Present(s, d) && d != s.nextConnId && Settled(s'.loops[l], l, d, s.conns[d], s.home[d])
  {
    hide SysInv, Count, Agrees, Name, Listing;
    InsertIsFresh(s);
    RoutedOf(s, l, d);
    CountPush(s.loops[h].q, RunEstablished(s.nextConnId), RunEstablished(d));
    CountPush(s.loops[h].q, RunEstablished(s.nextConnId), RunRemove(d));
    CountPush(s.loops[h].q, RunEstablished(s.nextConnId), RunDestroyed(d));
  }

  lemma NewListing(s: Server, conn: Conn, h: LoopId, q: Queue<Functor>, d: Id)
    requires SysInv(s) && h in s.loops && NewConn(s, conn, h, q) && (d in s.conns || d == s.nextConnId)
    ensures var s' := WithNew(s, conn, h, q);
      Present(s', d) && Listing(Name(s'.prefix, d) in s'.names, s'.conns[d], s'.loops[s'.home[d]].q, d)
  {
    hide SysInv, Count, Agrees, Name, Settled;
    InsertIsFresh(s);
    UnknownSettled(s, h, s.nextConnId);
    CountPush(s.loops[h].q, RunEstablished(s.nextConnId), RunDestroyed(d));
    if d in s.conns {
      ConnsGood(s, d);
      RoutedOf(s, s.home[d], d);
      if Name(s.prefix, d) == Name(s.prefix, s.nextConnId) { NamesDiffer(s.prefix, s.nextConnId, d); }
    }
  }

  lemma NewLoop(s: Server, conn: Conn, h: LoopId, q: Queue<Functor>, l: LoopId)
    requires SysInv(s) && h in s.loops && l in s.loops && NewConn(s, conn, h, q)
    ensures var s' := WithNew(s, conn, h, q); GoodLoop(s'.conns, s'.home, l, s'.loops[l])
  {
    hide SysInv, Count, Agrees, Name;
    InsertIsFresh(s);
    LoopsGood(s, l);
    assert s.conns[s.nextConnId := conn].Keys == s.conns.Keys + {s.nextConnId};
  }

  lemma NewNames(s: Server, conn: Conn, h: LoopId, q: Queue<Functor>, n: string)
    requires SysInv(s) && h in s.loops
    requires var s' := WithNew(s, conn, h, q); n in s'.names
    ensures var s' := WithNew(s, conn, h, q); GoodName(s'.prefix, s'.names, s'.conns.Keys, n)
  {
    hide GoodConn, GoodLoop, Name;
    assert n in s.names ==> GoodName(s.prefix, s.names, s.conns.Keys, n);
  }

  lemma NewShape(s: Server, conn: Conn, h: LoopId, q: Queue<Functor>)
    requires SysInv(s) && h in s.loops
    ensures var s' := WithNew(s, conn, h, q);
      BASE in s'.loops && s'.conns.Keys == s'.home.Keys && s'.held <= s'.conns.Keys
  {
    hide GoodConn, GoodLoop, GoodName, KernelAfter, Name;
  }

  lemma AddKeeps(s: Server, conn: Conn, h: LoopId, q: Queue<Functor>)
    requires SysInv(s) && h in s.loops && NewConn(s, conn, h, q)
    ensures SysInv(WithNew(s, conn, h, q))
  {
    hide SysInv, Count, Agrees, Name, Settled, GoodLoop, Listing, KernelAfter, GoodName;
    var s' := WithNew(s, conn, h, q);
    NewShape(s, conn, h, q);
    InsertIsFresh(s);
    forall d | d in s'.conns ensures Present(s', d) && GoodConn(s', d) {
      NewListing(s, conn, h, q, d);
      if d == s.nextConnId {
        forall l | l in s'.loops ensures Settled(s'.loops[l], l, d, conn, h) { NewSettled(s, conn, h, q, l); }
      } else {
        ConnsGood(s, d);
        forall l | l in s'.loops ensures Settled(s'.loops[l], l, d, s'.conns[d], s'.home[d]) {
          NewOthers(s, conn, h, q, d, l);
        }
      }
    }
    forall l | l in s'.loops ensures GoodLoop(s'.conns, s'.home, l, s'.loops[l]) { NewLoop(s, conn, h, q, l); }
    forall n | n in s'.names ensures GoodName(s'.prefix, s'.names, s'.conns.Keys, n) { NewNames(s, conn, h, q, n); }
    SysInvOf(s');
  }

  lemma SysInvOf(s: Server)
    requires BASE in s.loops && s.conns.Keys == s.home.Keys && s.held <= s.conns.Keys
    requires forall c | c in s.conns :: Present(s, c) && GoodConn(s, c)
    requires forall l | l in s.loops :: GoodLoop(s.conns, s.home, l, s.loops[l])
    requires forall n | n in s.names :: GoodName(s.prefix, s.names, s.conns.Keys, n)
    ensures SysInv(s)
  {
  }

  lemma AcceptKeeps(s: Server, ioLoop: LoopId, config: Config)
    requires SysInv(s) && CanDo(s, Accept(ioLoop, config))
    ensures SysInv(Do(s, Accept(ioLoop, config)))
  {
    hide SysInv, Name, Core;
    var conn, c := FreshConn(config), s.nextConnId;
    FreshCore(config);
    EstablishKeeps(conn);
    InsertIsFresh(s);
    if ioLoop == BASE {
      AddKeeps(s, ConnectEstablished(conn), ioLoop, s.loops[ioLoop].q);
      assert s.conns[c := conn][c := ConnectEstablished(conn)] == s.conns[c := ConnectEstablished(conn)];
    } else {
      AddKeeps(s, conn, ioLoop, s.loops[ioLoop].q.Push(RunEstablished(c)));
    }
  }

  // References and freeing

  lemma QueuedIsReferenced(s: Server, l: LoopId, c: Id)
    requires l in s.loops && Count(s.loops[l].q, RunDestroyed(c)) > 0
    ensures Referenced(s, c)
  {
    var q := s.loops[l].q;
    assert RunDestroyed(c) in q.batch || RunDestroyed(c) in q.pending;
    assert RunDestroyed(c) in q.batch + q.pending + q.ran;
    assert QueueMentions(q, c) && LoopMentions(s.loops[l], c);
  }

  /** Until it is destroyed a connection is on the map or its destroying functor is queued. */
  lemma ReferencedUntilGone(s: Server, c: Id)
    requires SysInv(s) && c in s.conns && !Gone(s.conns[c])
    ensures Referenced(s, c)
  {
    hide SysInv, Agrees, Count, Referenced, Name, Settled;
    BaseIsThere(s);
    RoutedOf(s, BASE, c);
    if Name(s.prefix, c) in s.names {
      ListedIsReferenced(s, c);
    } else {
      QueuedIsReferenced(s, s.home[c], c);
    }
  }

  lemma BaseIsThere(s: Server)
    requires SysInv(s)
    ensures BASE in s.loops
  {
  }

  lemma ListedIsReferenced(s: Server, c: Id)
    requires SysInv(s) && c in s.conns && Name(s.prefix, c) in s.names
    ensures Referenced(s, c)
  {
    hide Name, GoodConn, GoodLoop;
    var n := Name(s.prefix, c);
    assert GoodName(s.prefix, s.names, s.conns.Keys, n);
    NamesDiffer(s.prefix, c, s.names[n]);
    assert s.names[n] in s.names.Values;
  }

  /** A connection is freed only after its DOWN callback, and when no poller knows its channel. */
  lemma FreedOnlyWhenGone(s: Server, c: Id)
    requires SysInv(s) && c in s.conns && !Referenced(s, c)
    ensures Gone(s.conns[c]) && Down in s.conns[c].trace
    ensures forall l | l in s.loops :: c !in s.loops[l].interest
  {
    hide SysInv, Referenced, Core, Settled, Listing;
    if !Gone(s.conns[c]) { ReferencedUntilGone(s, c); }
    ConnsGood(s, c);
    CoreDown(s.conns[c]);
    forall l | l in s.loops ensures c !in s.loops[l].interest {
      if c in s.loops[l].interest { WatchedIsHere(s, l, c); }
    }
  }

  lemma CoreDown(conn: Conn)
    requires Core(conn)
    ensures Down in conn.trace <==> conn.state.Disconnected?
  {
  }

  lemma FreedLoop(s: Server, c: Id, l: LoopId)
    requires SysInv(s) && c in s.conns && !Referenced(s, c) && l in s.loops
    ensures GoodLoop(s.conns - {c}, s.home - {c}, l, s.loops[l])
  {
    LoopsGood(s, l);
    FreedOnlyWhenGone(s, c);
    NotMentioned(s, c, l);
    hide SysInv, Referenced, Agrees;
    LoopWithout(s.conns, s.home, l, s.loops[l], c);
  }

  lemma NotMentioned(s: Server, c: Id, l: LoopId)
    requires !Referenced(s, c) && l in s.loops
    ensures !LoopMentions(s.loops[l], c)
  {
  }

  lemma LoopWithout(conns: map<Id, Conn>, home: map<Id, LoopId>, l: LoopId, loop: Loop, c: Id)
    requires GoodLoop(conns, home, l, loop) && c in conns && conns[c].chan.index == New
    requires !LoopMentions(loop, c) && c !in loop.interest
    ensures GoodLoop(conns - {c}, home - {c}, l, loop)
  {
    assert (conns - {c}).Keys == conns.Keys - {c};
    assert forall f | f in loop.q.batch + loop.q.pending + loop.q.ran :: f.c != c;
    assert forall d | d != c && Here(conns, home, l, d) :: Here(conns - {c}, home - {c}, l, d);
  }

  lemma FreedRest(s: Server, c: Id)
    requires SysInv(s) && c in s.conns && !Referenced(s, c)
    ensures var s' := Freed(s, c);
      && BASE in s'.loops && s'.conns.Keys == s'.home.Keys == s.conns.Keys - {c} && s'.held <= s'.conns.Keys
      && forall n | n in s'.names :: GoodName(s'.prefix, s'.names, s'.conns.Keys, n)
  {
    hide GoodConn, GoodLoop, Name, LoopMentions;
    var s' := Freed(s, c);
    forall n | n in s'.names ensures GoodName(s'.prefix, s'.names, s'.conns.Keys, n) {
      assert GoodName(s.prefix, s.names, s.conns.Keys, n);
      assert s.names[n] in s.names.Values;
    }
  }

  lemma FreeKeeps(s: Server, c: Id)
    requires SysInv(s) && CanDo(s, Free(c))
    ensures SysInv(Do(s, Free(c)))
  {
    hide SysInv, Count, Agrees, Name, Settled, GoodLoop, Listing, GoodName, Referenced;
    var s' := Do(s, Free(c));
    FreedRest(s, c);
    forall d | d in s'.conns ensures Present(s', d) && GoodConn(s', d) { ConnsGood(s, d); }
    forall l | l in s'.loops ensures GoodLoop(s'.conns, s'.home, l, s'.loops[l]) { FreedLoop(s, c, l); }
    SysInvOf(s');
  }

  lemma HeldKeeps(s: Server, step: Step)
    requires SysInv(s) && CanDo(s, step) && (step.Hold? || step.Release?)
    ensures SysInv(Do(s, step))
  {
    hide Settled, Agrees, GoodLoop, GoodName, Referenced, Listing;
    var s' := Do(s, step);
    forall c | c in s'.conns ensures GoodConn(s', c) { assert GoodConn(s, c); }
  }

  // Every run

  lemma StepKeeps(s: Server, step: Step)
    requires SysInv(s) && CanDo(s, step)
    ensures SysInv(Do(s, step))
  {
    hide SysInv, Do, CanDo;
    match step
    case Accept(ioLoop, config) => AcceptKeeps(s, ioLoop, config);
    case PollReturns(l, active) => PollReturnsKeeps(s, l, active);
    case NextChannel(l) => NextChannelKeeps(s, l);
    case TestHangUp(l) => TestHangUpKeeps(s, l);
    case CloseCallback(l) => CloseCallbackKeeps(s, l);
    case ReadChannel(l, r) => ReadChannelKeeps(s, l, r);
    case WriteChannel(l, w) => WriteChannelKeeps(s, l, w);
    case StartFunctors(l) => StartFunctorsKeeps(s, l);
    case RunFunctor(l) => RunFunctorKeeps(s, l);
    case EndFunctors(l) => EndFunctorsKeeps(s, l);
    case UserCall(c, op) => UserCallKeeps(s, c, op);
    case Hold(c) => HeldKeeps(s, step);
    case Release(c) => HeldKeeps(s, step);
    case Free(c) => FreeKeeps(s, c);
  }

  /** A server with its loops idle and no connections. */
  predicate Initial(s: Server) {
    && BASE in s.loops && s.names == map[] && s.conns == map[] && s.home == map[]
    && s.held == {} && forall l | l in s.loops :: s.loops[l] == Loop(InPoll, EmptyQueue(), map[])
  }

  function RunAll(s: Server, steps: seq<Step>): Option<Server> {
    if steps == [] then Some(s)
    else
      match RunAll(s, steps[..|steps| - 1])
      case None => None
      case Some(s1) => if CanDo(s1, steps[|steps| - 1]) then Some(Do(s1, steps[|steps| - 1])) else None
  }

  lemma {:induction false} EveryRunKeeps(s: Server, steps: seq<Step>)
    requires Initial(s) && RunAll(s, steps).Some?
    ensures SysInv(RunAll(s, steps).value)
    decreases |steps|
  {
    if steps == [] {
      assert s.conns.Keys == s.home.Keys;
    } else {
      hide SysInv, CanDo, Do;
      EveryRunKeeps(s, steps[..|steps| - 1]);
      StepKeeps(RunAll(s, steps[..|steps| - 1]).value, steps[|steps| - 1]);
    }
  }

  /** The `i`-th channel still to be dispatched is that of `c`. */
  predicate ToDispatch(phase: Phase, i: nat, c: Id) {
    phase.Dispatching? && i < |phase.rest| && phase.rest[i].0 == c
  }

  lemma WatchedIsReferenced(s: Server, l: LoopId, c: Id)
    requires SysInv(s) && l in s.loops && c in s.loops[l].interest
    ensures Here(s.conns, s.home, l, c) && Referenced(s, c)
    ensures s.conns[c].chan.Interest() == Some(s.loops[l].interest[c])
  {
    hide SysInv, Referenced;
    WatchedIsHere(s, l, c);
    ReferencedUntilGone(s, c);
  }

  lemma MentionedExists(s: Server, l: LoopId, c: Id)
    requires SysInv(s) && l in s.loops && LoopMentions(s.loops[l], c)
    ensures c in s.conns
  {
    hide SysInv;
    LoopsGood(s, l);
  }

  lemma WaitingIsReferenced(s: Server, l: LoopId, i: nat, c: Id)
    requires SysInv(s) && l in s.loops && ToDispatch(s.loops[l].phase, i, c)
    ensures c in s.conns && Referenced(s, c)
  {
    hide SysInv, Referenced;
    LoopsGood(s, l);
    ReferencedUntilGone(s, c);
  }

  /** Lifetime safety, over every run with any number of loops and connections, whatever events the
      kernel reports: whatever a kernel table lists is a connection of that loop that has not been freed,
      is referenced, and asks for just what is listed; what a loop still has to dispatch is one that has
      not been freed and is referenced; and what it is handling or a queued functor is about has not
      been freed. */
  lemma LifetimeSafety(s0: Server, steps: seq<Step>, l: LoopId, c: Id)
    requires Initial(s0) && RunAll(s0, steps).Some? && l in RunAll(s0, steps).value.loops
    ensures var s := RunAll(s0, steps).value;
      && (c in s.loops[l].interest ==>
            && c in s.conns && c in s.home && s.home[c] == l && Referenced(s, c)
            && s.conns[c].chan.Interest() == Some(s.loops[l].interest[c]))
      && (forall i :: ToDispatch(s.loops[l].phase, i, c) ==> c in s.conns && Referenced(s, c))
      && (LoopMentions(s.loops[l], c) ==> c in s.conns)
  {
    EveryRunKeeps(s0, steps);
    var s := RunAll(s0, steps).value;
    hide RunAll, SysInv, Referenced, LoopMentions, ToDispatch, Initial;
    if c in s.loops[l].interest { WatchedIsReferenced(s, l, c); }
    if LoopMentions(s.loops[l], c) { MentionedExists(s, l, c); }
    forall i | ToDispatch(s.loops[l].phase, i, c) ensures c in s.conns && Referenced(s, c) {
      WaitingIsReferenced(s, l, i, c);
    }
  }

  /** In every run a connection is freed only after its DOWN callback and the removal of its channel,
      when no kernel table lists it, and a new connection's name is never on the map already. */
  lemma FreeAndInsertSafety(s0: Server, steps: seq<Step>, c: Id)
    requires Initial(s0) && RunAll(s0, steps).Some?
    ensures var s := RunAll(s0, steps).value;
      && (c in s.conns && !Referenced(s, c) ==>
            && s.conns[c].chan.index == New && Down in s.conns[c].trace
            && forall l | l in s.loops :: c !in s.loops[l].interest)
      && Name(s.prefix, s.nextConnId) !in s.names
  {
    EveryRunKeeps(s0, steps);
    var s := RunAll(s0, steps).value;
    hide RunAll, SysInv, Referenced, Name, Initial;
    InsertIsFresh(s);
    if c in s.conns && !Referenced(s, c) { FreedOnlyWhenGone(s, c); }
  }

  /** In every run of the whole server each connection's half-close is graceful, nothing is written after
      DOWN, its input and output are conserved and its write interest is exact. */
  lemma EveryConnectionIsGood(s0: Server, steps: seq<Step>, c: Id)
    requires Initial(s0) && RunAll(s0, steps).Some? && c in RunAll(s0, steps).value.conns
    ensures Core(RunAll(s0, steps).value.conns[c])
  {
    EveryRunKeeps(s0, steps);
    hide RunAll, Core, Initial;
    ConnsGood(RunAll(s0, steps).value, c);
  }
}
