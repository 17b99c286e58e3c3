/** The server system told by its connections: what a run does to one connection is a run of `ConnSpec`, and a
    channel that is handled is served as `ConnSpec.Dispatch` says. */
module ServerRuns {
  import opened Text
  import opened Buffers
  import opened ChannelSpec
  import opened ConnSpec
  import opened ConnRuns
  import opened Servers
  import opened ServerEnds
  import opened ServerProgress

  /** What an acting step finds. */
  lemma OpIsEnabled(s: Server, step: Step)
    requires SysInv(s) && CanDo(s, step) && OpOf(s, step).Some?
    ensures var (c, op) := OpOf(s, step).value; c in s.conns && Enabled(s.conns[c], op)
  {
    hide SysInv, Core, Agrees, Listing, Watched, GoodPhase, Referenced;
    if step.RunFunctor? {
      var q, c := s.loops[step.l].q, s.loops[step.l].q.batch[0].c;
      RoutedOf(s, step.l, c);
      if q.batch[0].RunEstablished? { EstablishedRoutes(q, step.l, c, s.conns[c], s.home[c]); }
    } else if !step.UserCall? {
      HandledConn(s, step.l);
    }
  }

  /** The calls that a step makes on connection `c`. */
  function CallsOf(s: Server, step: Step, c: Id): seq<Op>
    requires CanDo(s, step)
  {
    if step.Accept? then if c == s.nextConnId && step.ioLoop == BASE then [Establish] else []
    else
      match OpOf(s, step)
      case Some((d, op)) => if d == c then [op] else []
      case None => []
  }

  /** The calls that a run makes on it. */
  function Calls(s: Server, steps: seq<Step>, c: Id): seq<Op>
    requires RunAll(s, steps).Some?
  {
    if steps == [] then []
    else
      var n := |steps| - 1;
      Calls(s, steps[..n], c) + CallsOf(RunAll(s, steps[..n]).value, steps[n], c)
  }

  lemma OneCall(c: Conn, op: Op)
    requires Enabled(c, op)
    ensures RunOps(c, [op]) == Some(Apply(c, op))
  {
    hide Apply, Enabled;
    NoCalls(c);
    assert [op][..0] == [];
  }

  lemma StepIsCall(s: Server, step: Step, c: Id)
    requires SysInv(s) && CanDo(s, step) && c in s.conns && c in Do(s, step).conns
    ensures RunOps(s.conns[c], CallsOf(s, step, c)) == Some(Do(s, step).conns[c])
  {
    hide SysInv, CanDo, Do, OpOf, Apply, Enabled, RunOps;
    NoCalls(s.conns[c]);
    if step.Accept? || step.Free? {
      NoOp(s, step);
      BookLeaves(s, step, c);
    } else {
      if OpOf(s, step).Some? {
        OpIsEnabled(s, step);
        OneCall(s.conns[OpOf(s, step).value.0], OpOf(s, step).value.1);
      }
      ConnsAfter(s, step);
    }
  }

  lemma NoOp(s: Server, step: Step)
    requires CanDo(s, step) && (step.Accept? || step.Free?)
    ensures OpOf(s, step) == None
  {
    hide CanDo;
  }

  lemma BookLeaves(s: Server, step: Step, c: Id)
    requires SysInv(s) && CanDo(s, step) && (step.Accept? || step.Free?) && c in s.conns && c in Do(s, step).conns
    ensures Do(s, step).conns[c] == s.conns[c] && c != s.nextConnId
  {
    hide SysInv, Core, Agrees, Name, KernelAfter, Referenced, Listing, Settled;
    ConnsGood(s, c);
  }

  /** Nothing is done to a connection that does not exist. */
  lemma NoCallsBefore(s: Server, step: Step, c: Id)
    requires SysInv(s) && CanDo(s, step) && c !in s.conns && (step.Accept? ==> c != s.nextConnId)
    ensures CallsOf(s, step, c) == []
  {
    hide SysInv, CanDo, OpOf, Enabled;
    if OpOf(s, step).Some? { OpIsEnabled(s, step); }
  }

  lemma AcceptMakes(s: Server, step: Step)
    requires SysInv(s) && CanDo(s, step) && step.Accept?
    ensures var (c, s') := (s.nextConnId, Do(s, step));
      && c in s'.conns && s'.conns[c].config == step.config
      && RunOps(FreshConn(step.config), CallsOf(s, step, c)) == Some(s'.conns[c])
  {
    hide SysInv, Name, KernelAfter, RunOps, OpOf, Core;
    NoCalls(FreshConn(step.config));
    OneCall(FreshConn(step.config), Establish);
  }

  lemma NextIdGrows(s: Server, step: Step)
    requires CanDo(s, step)
    ensures Do(s, step).nextConnId == if step.Accept? then s.nextConnId + 1 else s.nextConnId
  {
    hide Core, Name, KernelAfter, Referenced, Apply, NoticesOf, HandleWrite, HandleRead, HandleClose, ConnectDestroyed,
         ConnectEstablished;
    if step.WriteChannel? {
      var p := s.loops[step.l].phase;
      var (conn, notices) := HandleWrite(s.conns[p.c], step.w);
      NoticesQueued(WithConn(WithPhase(s, step.l, Dispatching(p.rest)), p.c, conn), step.l, p.c, notices);
    } else if step.UserCall? {
      NoticesQueued(WithConn(s, step.c, Apply(s.conns[step.c], step.op)), s.home[step.c], step.c,
                  NoticesOf(s.conns[step.c], step.op));
    }
  }

  lemma {:induction false} ConfigStays(c: Conn, ops: seq<Op>)
    requires RunOps(c, ops).Some?
    ensures RunOps(c, ops).value.config == c.config
    decreases |ops|
  {
    if ops == [] {
    } else {
      ConfigStays(c, ops[..|ops| - 1]);
      ConfigStep(RunOps(c, ops[..|ops| - 1]).value, ops[|ops| - 1]);
    }
  }

  lemma ConfigStep(c: Conn, op: Op)
    requires Enabled(c, op)
    ensures Apply(c, op).config == c.config
  {
  }

  lemma {:induction false} RunOpsAppend(c: Conn, xs: seq<Op>, ys: seq<Op>)
    requires RunOps(c, xs).Some?
    ensures RunOps(c, xs + ys) == RunOps(RunOps(c, xs).value, ys)
    decreases |ys|
  {
    hide Apply, Enabled;
    if ys == [] {
      assert xs + ys == xs;
    } else {
      assert (xs + ys)[..|xs + ys| - 1] == xs + ys[..|ys| - 1];
      RunOpsAppend(c, xs, ys[..|ys| - 1]);
    }
  }

  /** What the theorem below says of connection `c`, with the calls made on it so far. */
  ghost predicate Follows(s: Server, calls: seq<Op>, c: Id) {
    && (c >= s.nextConnId ==> c !in s.conns && calls == [])
    && (c in s.conns ==> RunOps(FreshConn(s.conns[c].config), calls) == Some(s.conns[c]))
  }

  lemma FollowsStep(s: Server, calls: seq<Op>, step: Step, c: Id)
    requires SysInv(s) && CanDo(s, step) && Follows(s, calls, c)
    ensures Follows(Do(s, step), calls + CallsOf(s, step, c), c)
  {
    hide SysInv, CanDo, Do, RunOps, CallsOf;
    var s', more := Do(s, step), CallsOf(s, step, c);
    NextIdGrows(s, step);
    if c in s.conns && c in s'.conns {
      StepIsCall(s, step, c);
      ConfigStays(s.conns[c], more);
      RunOpsAppend(FreshConn(s.conns[c].config), calls, more);
    } else if c in s'.conns {
      NewOnlyByAccept(s, step, c);
      AcceptMakes(s, step);
      assert calls + more == more;
    } else if c >= s'.nextConnId {
      NoCallsBefore(s, step, c);
    }
    if c in s'.conns { KnownNumber(s, step, c); }
  }

  lemma KnownNumber(s: Server, step: Step, c: Id)
    requires SysInv(s) && CanDo(s, step) && c in Do(s, step).conns
    ensures c < Do(s, step).nextConnId
  {
    hide SysInv, CanDo, Do, Agrees, Listing, Settled;
    StepKeeps(s, step);
    ConnsGood(Do(s, step), c);
  }

  /** Over every run of the server what has become of each connection is a run of the calls that the steps make on
      it, one after another.  So every theorem of `ConnSpec` and `ConnRuns` about runs is one about the server. */
  lemma {:induction false} EachConnectionRuns(s0: Server, steps: seq<Step>, c: Id)
    requires Initial(s0) && RunAll(s0, steps).Some?
    ensures Follows(RunAll(s0, steps).value, Calls(s0, steps, c), c)
    decreases |steps|
  {
    if steps == [] {
    } else {
      hide SysInv, CanDo, Do, Follows, CallsOf, Initial;
      var n := |steps| - 1;
      EachConnectionRuns(s0, steps[..n], c);
      EveryRunKeeps(s0, steps[..n]);
      FollowsStep(RunAll(s0, steps[..n]).value, Calls(s0, steps[..n], c), steps[n], c);
    }
  }

  /** What the calls on a connection, as the steps of the server make them, come to: its state, what its user was
      told, and both of its byte streams. */
  lemma EveryConnectionIsTold(s0: Server, steps: seq<Step>, c: Id)
    requires Initial(s0) && RunAll(s0, steps).Some? && c in RunAll(s0, steps).value.conns
    ensures var (conn, calls) := (RunAll(s0, steps).value.conns[c], Calls(s0, steps, c));
      && RunOps(FreshConn(conn.config), calls) == Some(conn)
      && conn.state == StateAfter(calls) && Callbacks(conn.trace) == Expected(calls)
      && Given(FreshConn(conn.config), calls) == Written(FreshConn(conn.config), calls) + conn.output
      && Delivered(calls) == Consumed(conn.trace) + conn.input
  {
    hide RunAll, Calls, Initial, RunOps, StateAfter, Callbacks, Expected, Given, Written, Delivered, Consumed;
    EachConnectionRuns(s0, steps, c);
    var conn, calls := RunAll(s0, steps).value.conns[c], Calls(s0, steps, c);
    StateIsAsCalled(conn.config, calls);
    CallbacksExactly(conn.config, calls);
    EveryByteSent(conn.config, calls);
    EveryByteRead(conn.config, calls);
  }

  // User calls and the pointers users hold

  /** A call by the user acts on its connection, and queues the callbacks it calls for on the connection's loop. */
  lemma UserCallActs(s: Server, c: Id, op: Op)
    requires SysInv(s) && CanDo(s, UserCall(c, op))
    ensures var s' := Do(s, UserCall(c, op));
      && s'.conns == s.conns[c := Apply(s.conns[c], op)] && s.home[c] in s'.loops
      && Pending(s', s.home[c])
         == Pending(s, s.home[c])
            + NoticeFunctors(c, if op.UserSend? then Send(s.conns[c], op.message, op.w).1 else [])
  {
    hide SysInv, KernelAfter, Apply, Send, Referenced;
    NoticesQueued(WithConn(s, c, Apply(s.conns[c], op)), s.home[c], c, NoticesOf(s.conns[c], op));
  }

  /** A pointer that the user takes keeps its connection until the user gives it up. */
  lemma HeldStays(s: Server, step: Step, c: Id)
    requires SysInv(s) && CanDo(s, step)
    requires step == Hold(c) || (c in s.held && step != Release(c))
    ensures c in Do(s, step).held && c in Do(s, step).conns
  {
    hide SysInv, CanDo, Do;
    StepKeeps(s, step);
    HeldAfter(s, step, c);
    HeldExist(Do(s, step), c);
  }

  lemma HeldExist(s: Server, c: Id)
    requires SysInv(s) && c in s.held
    ensures c in s.conns
  {
  }

  lemma HeldAfter(s: Server, step: Step, c: Id)
    requires CanDo(s, step) && (step == Hold(c) || (c in s.held && step != Release(c)))
    ensures c in Do(s, step).held
  {
    hide Core, Name, KernelAfter, Referenced, Apply, NoticesOf, HandleWrite, HandleRead, HandleClose, ConnectDestroyed,
         ConnectEstablished;
    if step.WriteChannel? {
      var p := s.loops[step.l].phase;
      var (conn, notices) := HandleWrite(s.conns[p.c], step.w);
      NoticesQueued(WithConn(WithPhase(s, step.l, Dispatching(p.rest)), p.c, conn), step.l, p.c, notices);
    } else if step.UserCall? {
      NoticesQueued(WithConn(s, step.c, Apply(s.conns[step.c], step.op)), s.home[step.c], step.c,
                  NoticesOf(s.conns[step.c], step.op));
    }
  }

  // Accepting

  /** A new connection is on the map, on the loop chosen for it, and established at once there or waiting for its
      functor. */
  lemma AcceptExactly(s: Server, ioLoop: LoopId, config: Config)
    requires SysInv(s) && CanDo(s, Accept(ioLoop, config))
    ensures var (c, s') := (s.nextConnId, Do(s, Accept(ioLoop, config)));
      && c in s'.conns && c in s'.home && s'.home[c] == ioLoop && s'.conns[c].config == config
      && Name(s.prefix, c) in s'.names && s'.names[Name(s.prefix, c)] == c
      && s'.nextConnId == c + 1
      && (if ioLoop == BASE then
            && s'.conns[c].state.Connected? && s'.conns[c].trace == [Up]
            && c in s'.loops[BASE].interest && s'.loops[BASE].interest[c].reading
          else
            && s'.conns[c] == FreshConn(config)
            && s'.loops[ioLoop].q.pending == s.loops[ioLoop].q.pending + [RunEstablished(c)])
  {
    hide SysInv, Name, Core, Graceful;
  }

  // Serving a channel

  lemma Then(s: Server, steps: seq<Step>, s1: Server, step: Step)
    requires RunAll(s, steps) == Some(s1) && SysInv(s1) && CanDo(s1, step)
    ensures RunAll(s, steps + [step]) == Some(Do(s1, step)) && SysInv(Do(s1, step))
  {
    hide SysInv, CanDo, Do;
    assert (steps + [step])[..|steps|] == steps;
    StepKeeps(s1, step);
  }

  /** Loop `l` is handling channel `c`, at `stage`. */
  predicate At(s: Server, l: LoopId, c: Id, re: Revents, stage: Stage, rest: seq<(Id, Revents)>) {
    l in s.loops && s.loops[l].phase == Handling(c, re, stage, rest) && c in s.conns
  }

  /** What a close callback queues on a loop that is the base loop. */
  function Ends(l: LoopId, c: Id, closes: bool): seq<Functor> {
    if closes && l == BASE then [RunDestroyed(c)] else []
  }

  function NoticeFunctors(c: Id, notices: seq<Notice>): seq<Functor> {
    seq(|notices|, i requires 0 <= i < |notices| => RunNotice(c, notices[i]))
  }

  function Pending(s: Server, l: LoopId): seq<Functor>
    requires l in s.loops
  {
    s.loops[l].q.pending
  }

  lemma HangUpServed(s: Server, l: LoopId, c: Id, re: Revents, rest: seq<(Id, Revents)>)
    returns (steps: seq<Step>, s': Server)
    requires SysInv(s) && At(s, l, c, re, HangUp, rest)
    ensures steps == [TestHangUp(l)] + if ClosesFirst(re) then [CloseCallback(l)] else []
    ensures RunAll(s, steps) == Some(s') && SysInv(s') && At(s', l, c, re, Reading, rest)
    ensures s'.conns == s.conns[c := if ClosesFirst(re) then HandleClose(s.conns[c]) else s.conns[c]]
    ensures Pending(s', l) == Pending(s, l) + Ends(l, c, ClosesFirst(re))
  {
    hide SysInv, RunAll, HandleClose, ClosesFirst;
    var s1 := HangUpTested(s, l, c, re, rest);
    steps, s' := [TestHangUp(l)], s1;
    if ClosesFirst(re) {
      s' := CalledBack(s1, l, c, re, ClosedByHangUp, rest);
      Then(s, steps, s1, CloseCallback(l));
      steps := steps + [CloseCallback(l)];
    } else {
      assert steps + [] == steps;
    }
  }

  lemma HangUpTested(s: Server, l: LoopId, c: Id, re: Revents, rest: seq<(Id, Revents)>) returns (s': Server)
    requires SysInv(s) && At(s, l, c, re, HangUp, rest)
    ensures RunAll(s, [TestHangUp(l)]) == Some(s') && SysInv(s')
    ensures At(s', l, c, re, if ClosesFirst(re) then ClosedByHangUp else Reading, rest)
    ensures s'.conns == s.conns[c := if ClosesFirst(re) then HandleClose(s.conns[c]) else s.conns[c]]
    ensures Pending(s', l) == Pending(s, l)
  {
    hide SysInv, RunAll, HandleClose, KernelAfter;
    HandlerCan(s, l);
    s' := Do(s, TestHangUp(l));
    RunSingle(s, TestHangUp(l));
    StepKeeps(s, TestHangUp(l));
  }

  lemma CalledBack(s: Server, l: LoopId, c: Id, re: Revents, stage: Stage, rest: seq<(Id, Revents)>)
    returns (s': Server)
    requires SysInv(s) && At(s, l, c, re, stage, rest) && (stage.ClosedByHangUp? || stage.ClosedByRead?)
    ensures CanDo(s, CloseCallback(l)) && s' == Do(s, CloseCallback(l))
    ensures At(s', l, c, re, if stage.ClosedByHangUp? then Reading else Writing, rest) && s'.conns == s.conns
    ensures Pending(s', l) == Pending(s, l) + Ends(l, c, true)
  {
    hide SysInv, Name;
    HandlerCan(s, l);
    s' := Do(s, CloseCallback(l));
  }

  lemma ReadServed(s: Server, l: LoopId, c: Id, re: Revents, rest: seq<(Id, Revents)>, r: ReadResult)
    returns (steps: seq<Step>, s': Server)
    requires SysInv(s) && At(s, l, c, re, Reading, rest)
    ensures steps == [ReadChannel(l, r)] + if Reads(re) && r == Got("") then [CloseCallback(l)] else []
    ensures RunAll(s, steps) == Some(s') && SysInv(s') && At(s', l, c, re, Writing, rest)
    ensures s'.conns == s.conns[c := if Reads(re) then HandleRead(s.conns[c], r) else s.conns[c]]
    ensures Pending(s', l) == Pending(s, l) + Ends(l, c, Reads(re) && r == Got(""))
  {
    hide SysInv, RunAll, HandleRead, Reads;
    var s1 := ChannelRead(s, l, c, re, rest, r);
    steps, s' := [ReadChannel(l, r)], s1;
    if Reads(re) && r == Got("") {
      s' := CalledBack(s1, l, c, re, ClosedByRead, rest);
      Then(s, steps, s1, CloseCallback(l));
      steps := steps + [CloseCallback(l)];
    } else {
      assert steps + [] == steps;
    }
  }

  lemma ChannelRead(s: Server, l: LoopId, c: Id, re: Revents, rest: seq<(Id, Revents)>, r: ReadResult)
    returns (s': Server)
    requires SysInv(s) && At(s, l, c, re, Reading, rest)
    ensures RunAll(s, [ReadChannel(l, r)]) == Some(s') && SysInv(s')
    ensures At(s', l, c, re, if Reads(re) && r == Got("") then ClosedByRead else Writing, rest)
    ensures s'.conns == s.conns[c := if Reads(re) then HandleRead(s.conns[c], r) else s.conns[c]]
    ensures Pending(s', l) == Pending(s, l)
  {
    hide SysInv, RunAll, HandleRead, KernelAfter;
    HandlerCan(s, l);
    s' := Do(s, ReadChannel(l, r));
    RunSingle(s, ReadChannel(l, r));
    StepKeeps(s, ReadChannel(l, r));
  }

  lemma WriteServed(s: Server, l: LoopId, c: Id, re: Revents, rest: seq<(Id, Revents)>, w: WriteResult)
    returns (s': Server)
    requires SysInv(s) && At(s, l, c, re, Writing, rest) && Possible(w, |s.conns[c].output|)
    ensures CanDo(s, WriteChannel(l, w)) && s' == Do(s, WriteChannel(l, w)) && SysInv(s')
    ensures l in s'.loops && s'.loops[l].phase == Dispatching(rest)
    ensures var (conn, notices) := if re.out then HandleWrite(s.conns[c], w) else (s.conns[c], []);
      s'.conns == s.conns[c := conn] && Pending(s', l) == Pending(s, l) + NoticeFunctors(c, notices)
  {
    hide SysInv, HandleWrite, KernelAfter, CanDo, Do;
    HandlerCan(s, l);
    WriteCan(s, l, w);
    s' := Do(s, WriteChannel(l, w));
    StepKeeps(s, WriteChannel(l, w));
    if re.out {
      ChannelWritten(s, l, c, re, rest, w);
    } else {
      ChannelSkipped(s, l, c, re, rest, w);
    }
  }

  lemma WriteCan(s: Server, l: LoopId, w: WriteResult)
    requires HandlingOf(s, l) && s.loops[l].phase.stage.Writing?
    requires Possible(w, |s.conns[s.loops[l].phase.c].output|)
    ensures CanDo(s, WriteChannel(l, w))
  {
  }

  lemma ChannelSkipped(s: Server, l: LoopId, c: Id, re: Revents, rest: seq<(Id, Revents)>, w: WriteResult)
    requires At(s, l, c, re, Writing, rest) && !re.out && CanDo(s, WriteChannel(l, w))
    ensures var s' := Do(s, WriteChannel(l, w));
      && l in s'.loops && s'.loops[l].phase == Dispatching(rest) && s'.conns == s.conns[c := s.conns[c]]
      && Pending(s', l) == Pending(s, l) + NoticeFunctors(c, [])
  {
    assert Pending(s, l) + NoticeFunctors(c, []) == Pending(s, l);
  }

  lemma ChannelWritten(s: Server, l: LoopId, c: Id, re: Revents, rest: seq<(Id, Revents)>, w: WriteResult)
    requires At(s, l, c, re, Writing, rest) && re.out && CanDo(s, WriteChannel(l, w))
    ensures Possible(w, |s.conns[c].output|)
    ensures var (s', written) := (Do(s, WriteChannel(l, w)), HandleWrite(s.conns[c], w));
      && l in s'.loops && s'.loops[l].phase == Dispatching(rest) && s'.conns == s.conns[c := written.0]
      && Pending(s', l) == Pending(s, l) + NoticeFunctors(c, written.1)
  {
    hide HandleWrite, KernelAfter;
    var (conn, notices) := HandleWrite(s.conns[c], w);
    NoticesQueued(WithConn(WithPhase(s, l, Dispatching(rest)), c, conn), l, c, notices);
  }

  /** The steps of handling one channel. */
  function ServeSteps(l: LoopId, re: Revents, r: ReadResult, w: WriteResult): seq<Step> {
    [TestHangUp(l)] + (if ClosesFirst(re) then [CloseCallback(l)] else [])
    + ([ReadChannel(l, r)] + if Reads(re) && r == Got("") then [CloseCallback(l)] else []) + [WriteChannel(l, w)]
  }

  /** A reported channel is handled as `ConnSpec.Dispatch` says, and its loop goes on to the next one. */
  lemma ChannelIsServed(s: Server, l: LoopId, c: Id, re: Revents, rest: seq<(Id, Revents)>, r: ReadResult,
                        w: WriteResult) returns (s': Server)
    requires SysInv(s) && At(s, l, c, re, HangUp, rest) && Possible(w, |s.conns[c].output|)
    ensures RunAll(s, ServeSteps(l, re, r, w)) == Some(s') && SysInv(s')
    ensures l in s'.loops && s'.loops[l].phase == Dispatching(rest)
    ensures s'.conns == s.conns[c := Dispatch(s.conns[c], re, r, w).0]
    ensures Pending(s', l)
         == Pending(s, l) + Ends(l, c, ClosesFirst(re)) + Ends(l, c, Reads(re) && r == Got(""))
            + NoticeFunctors(c, Dispatch(s.conns[c], re, r, w).1)
  {
    hide SysInv, RunAll, HandleClose, HandleRead, HandleWrite, CanDo, Do;
    var xs, s1 := HangUpServed(s, l, c, re, rest);
    var ys, s2 := ReadServed(s1, l, c, re, rest, r);
    OutputWaits(s.conns[c], r);
    OutputWaits(s1.conns[c], r);
    s' := WriteServed(s2, l, c, re, rest, w);
    RunAllAppend(s, xs, ys);
    Then(s, xs + ys, s2, WriteChannel(l, w));
  }

  lemma OutputWaits(c: Conn, r: ReadResult)
    ensures HandleClose(c).output == c.output && HandleRead(c, r).output == c.output
  {
  }

  /** A poll can report any entries of the kernel's table, and its loop then handles them one by one. */
  lemma ReportIsTaken(s: Server, l: LoopId, active: seq<(Id, Revents)>)
    requires SysInv(s) && l in s.loops && s.loops[l].phase.InPoll? && CanReport(s.loops[l].interest, active)
    ensures CanDo(s, PollReturns(l, active))
    ensures var s' := Do(s, PollReturns(l, active));
      && SysInv(s') && s'.conns == s.conns && l in s'.loops && s'.loops[l].phase == Dispatching(active)
      && Pending(s', l) == Pending(s, l)
  {
    hide SysInv, CanReport;
    StepKeeps(s, PollReturns(l, active));
  }

  lemma NextIsTaken(s: Server, l: LoopId, rest: seq<(Id, Revents)>)
    requires SysInv(s) && l in s.loops && s.loops[l].phase == Dispatching(rest) && rest != []
    ensures CanDo(s, NextChannel(l))
    ensures var s' := Do(s, NextChannel(l));
      SysInv(s') && s'.conns == s.conns && At(s', l, rest[0].0, rest[0].1, HangUp, rest[1..])
  {
    hide SysInv;
    StepKeeps(s, NextChannel(l));
    LoopsGood(Do(s, NextChannel(l)), l);
  }

  /** What is still to be dispatched is of different connections, and what their sockets will do is possible. */
  predicate Ready(s: Server, rest: seq<(Id, Revents)>, rs: seq<ReadResult>, ws: seq<WriteResult>) {
    && |rs| == |ws| == |rest| && (forall i, j | 0 <= i < j < |rest| :: rest[i].0 != rest[j].0)
    && forall i | 0 <= i < |rest| :: rest[i].0 in s.conns && Possible(ws[i], |s.conns[rest[i].0].output|)
  }

  /** Everything that a poll has returned is served: each connection as `ConnSpec.Dispatch` says, and no other is
      touched. */
  lemma {:induction false} AllServed(s: Server, l: LoopId, rest: seq<(Id, Revents)>, rs: seq<ReadResult>,
                                     ws: seq<WriteResult>) returns (steps: seq<Step>, s': Server)
    requires SysInv(s) && l in s.loops && s.loops[l].phase == Dispatching(rest) && Ready(s, rest, rs, ws)
    ensures RunAll(s, steps) == Some(s') && SysInv(s')
    ensures l in s'.loops && s'.loops[l].phase == Dispatching([]) && s'.conns.Keys == s.conns.Keys
    ensures forall i | 0 <= i < |rest| ::
      s'.conns[rest[i].0] == Dispatch(s.conns[rest[i].0], rest[i].1, rs[i], ws[i]).0
    ensures forall c | c in s.conns && (forall i | 0 <= i < |rest| :: rest[i].0 != c) :: s'.conns[c] == s.conns[c]
    decreases |rest|
  {
    hide SysInv, RunAll, Dispatch, CanDo, Do, ServeSteps;
    if rest == [] {
      NoneTaken(s);
      steps, s' := [], s;
    } else {
      var c, re := rest[0].0, rest[0].1;
      var next, serve := [NextChannel(l)], ServeSteps(l, re, rs[0], ws[0]);
      NextIsTaken(s, l, rest);
      RunSingle(s, NextChannel(l));
      var s1 := Do(s, NextChannel(l));
      var s2 := ChannelIsServed(s1, l, c, re, rest[1..], rs[0], ws[0]);
      RunAllAppend(s, next, serve);
      var more: seq<Step>;
      more, s' := AllServed(s2, l, rest[1..], rs[1..], ws[1..]);
      RunAllAppend(s, next + serve, more);
      steps := next + serve + more;
    }
  }

  lemma NoneTaken(s: Server)
    ensures RunAll(s, []) == Some(s)
  {
  }
}
