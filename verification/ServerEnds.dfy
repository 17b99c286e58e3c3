/** What the runs of `Servers` come to: user callbacks queued in order, no closed connection forgotten,
    and, when the kernel reports no hang-up with urgent data but without input, paired callbacks and one
    way to the end. */
module ServerEnds {
  import opened Text
  import opened Buffers
  import opened ChannelSpec
  import opened ConnSpec
  import opened Servers

  // User callbacks

  /** User callbacks are queued on the connection's loop in order, behind what is pending. */
  lemma {:induction false} NoticesQueued(s: Server, l: LoopId, c: Id, notices: seq<Notice>)
    requires l in s.loops
    ensures var q := s.loops[l].q;
      NotifyAll(s, l, c, notices)
      == s.(loops := s.loops[l := s.loops[l].(q := q.(pending :=
           q.pending + seq(|notices|, i requires 0 <= i < |notices| => RunNotice(c, notices[i]))))])
    decreases |notices|
  {
    var all := seq(|notices|, i requires 0 <= i < |notices| => RunNotice(c, notices[i]));
    if notices == [] {
      assert s.loops[l].q.pending + all == s.loops[l].q.pending;
      assert s.loops[l := s.loops[l]] == s.loops;
    } else {
      NoticesQueued(Queued(s, l, RunNotice(c, notices[0])), l, c, notices[1..]);
      assert all == [RunNotice(c, notices[0])]
                    + seq(|notices| - 1, i requires 0 <= i < |notices| - 1 => RunNotice(c, notices[1..][i]));
      assert s.loops[l].q.pending + all == s.loops[l].q.pending + [all[0]] + all[1..];
    }
  }

  // Every closed connection is on its way to be destroyed

  /** What is under way for the end of `c`: a close callback, its removal or its destruction. */
  function Tokens(s: Server, c: Id): nat
    requires Present(s, c) && BASE in s.loops
  {
    One(AtCallback(s.loops[s.home[c]].phase, c)) + Count(s.loops[BASE].q, RunRemove(c))
    + Count(s.loops[s.home[c]].q, RunDestroyed(c))
  }

  /** The step closes `c`. */
  predicate Closes(s: Server, step: Step, c: Id) {
    match step
    case TestHangUp(l) => HandlingOf(s, l) && s.loops[l].phase.c == c && ClosesFirst(s.loops[l].phase.re)
    case ReadChannel(l, r) => HandlingOf(s, l) && s.loops[l].phase.c == c && Reads(s.loops[l].phase.re) && r == Got("")
    case _ => false
  }

  /** The step runs a destroying functor of `c`. */
  predicate Destroys(s: Server, step: Step, c: Id) {
    step.RunFunctor? && step.l in s.loops && s.loops[step.l].q.batch != []
    && s.loops[step.l].q.batch[0] == RunDestroyed(c)
  }

  predicate IsToken(f: Functor, c: Id) { f == RunRemove(c) || f == RunDestroyed(c) }

  lemma TokensPush(s: Server, l: LoopId, f: Functor, c: Id)
    requires Present(s, c) && BASE in s.loops && l in s.loops
    requires f == RunRemove(c) ==> l == BASE
    requires f == RunDestroyed(c) ==> l == s.home[c]
    ensures Tokens(Queued(s, l, f), c) == Tokens(s, c) + One(IsToken(f, c))
  {
    CountPush(s.loops[l].q, f, RunRemove(c));
    CountPush(s.loops[l].q, f, RunDestroyed(c));
    hide Count, AtCallback;
  }

  lemma TokensPop(s: Server, l: LoopId, c: Id)
    requires Present(s, c) && BASE in s.loops && l in s.loops && s.loops[l].q.batch != []
    requires s.loops[l].q.batch[0] == RunRemove(c) ==> l == BASE
    requires s.loops[l].q.batch[0] == RunDestroyed(c) ==> l == s.home[c]
    ensures Tokens(Popped(s, l), c) + One(IsToken(s.loops[l].q.batch[0], c)) == Tokens(s, c)
  {
    CountRunNext(s.loops[l].q, RunRemove(c));
    CountRunNext(s.loops[l].q, RunDestroyed(c));
    hide Count, AtCallback;
  }

  lemma TokensPhase(s: Server, l: LoopId, phase: Phase, c: Id)
    requires Present(s, c) && BASE in s.loops && l in s.loops
    ensures Tokens(WithPhase(s, l, phase), c) + One(l == s.home[c] && AtCallback(s.loops[l].phase, c))
         == Tokens(s, c) + One(l == s.home[c] && AtCallback(phase, c))
  {
    hide Count, AtCallback;
  }

  lemma TokensConn(s: Server, d: Id, conn: Conn, c: Id)
    requires Present(s, c) && Present(s, d) && BASE in s.loops
    ensures Present(WithConn(s, d, conn), c) && Tokens(WithConn(s, d, conn), c) == Tokens(s, c)
  {
    hide Count, AtCallback, KernelAfter;
  }

  lemma {:induction false} TokensNotify(s: Server, l: LoopId, d: Id, notices: seq<Notice>, c: Id)
    requires Present(s, c) && BASE in s.loops && l in s.loops
    ensures var s' := NotifyAll(s, l, d, notices);
      && Present(s', c) && BASE in s'.loops && s'.conns == s.conns && Tokens(s', c) == Tokens(s, c)
    decreases |notices|
  {
    hide Tokens;
    if notices == [] {
    } else {
      TokensPush(s, l, RunNotice(d, notices[0]), c);
      TokensNotify(Queued(s, l, RunNotice(d, notices[0])), l, d, notices[1..], c);
    }
  }

  /** What a step makes of a connection's end: one more thing under way when it closes it, one less when
      it destroys it. */
  ghost predicate TokensMove(s: Server, step: Step, c: Id)
    requires CanDo(s, step) && Present(s, c) && BASE in s.loops
  {
    var s' := Do(s, step);
    && Present(s', c) && BASE in s'.loops
    && Tokens(s', c) + One(Destroys(s, step, c)) == Tokens(s, c) + One(Closes(s, step, c))
    && (Ending(s'.conns[c]) <==> (Ending(s.conns[c]) || Closes(s, step, c)) && !Destroys(s, step, c))
  }

  lemma HangUpTokens(s: Server, l: LoopId, c: Id)
    requires SysInv(s) && CanDo(s, TestHangUp(l)) && c in s.conns && Present(s, c)
    ensures BASE in s.loops && TokensMove(s, TestHangUp(l), c)
  {
    hide SysInv, Tokens, Agrees, Core, KernelAfter, Count;
    BaseIsThere(s);
    var p := s.loops[l].phase;
    HandledConn(s, l);
    CloseIndex(s.conns[p.c]);
    if ClosesFirst(p.re) {
      TokensConn(s, p.c, HandleClose(s.conns[p.c]), c);
      TokensPhase(WithConn(s, p.c, HandleClose(s.conns[p.c])), l, p.(stage := ClosedByHangUp), c);
    } else {
      TokensPhase(s, l, p.(stage := Reading), c);
    }
  }

  lemma ReadTokens(s: Server, l: LoopId, r: ReadResult, c: Id)
    requires SysInv(s) && CanDo(s, ReadChannel(l, r)) && c in s.conns && Present(s, c)
    ensures BASE in s.loops && TokensMove(s, ReadChannel(l, r), c)
  {
    hide SysInv, Tokens, Agrees, Core, KernelAfter, Count, HandleClose;
    BaseIsThere(s);
    var p := s.loops[l].phase;
    HandledConn(s, l);
    CloseIndex(s.conns[p.c]);
    if Reads(p.re) {
      var phase := p.(stage := if r == Got("") then ClosedByRead else Writing);
      TokensConn(s, p.c, HandleRead(s.conns[p.c], r), c);
      TokensPhase(WithConn(s, p.c, HandleRead(s.conns[p.c], r)), l, phase, c);
    } else {
      TokensPhase(s, l, p.(stage := Writing), c);
    }
  }

  lemma CloseIndex(conn: Conn)
    requires conn.chan.index != New
    ensures Ending(HandleClose(conn))
  {
  }

  lemma CallbackTokens(s: Server, l: LoopId, c: Id)
    requires SysInv(s) && CanDo(s, CloseCallback(l)) && c in s.conns && Present(s, c)
    ensures BASE in s.loops && TokensMove(s, CloseCallback(l), c)
  {
    hide SysInv, Tokens, Agrees, Core, Count, Name;
    BaseIsThere(s);
    var p := s.loops[l].phase;
    var s1 := WithPhase(s, l, AfterCallback(p));
    TokensPhase(s, l, AfterCallback(p), c);
    if l == BASE {
      TokensUnlisted(s1, Name(s.prefix, p.c), c);
      TokensPush(s1.(names := s1.names - {Name(s.prefix, p.c)}), l, RunDestroyed(p.c), c);
    } else {
      TokensPush(s1, BASE, RunRemove(p.c), c);
    }
  }

  lemma TokensUnlisted(s: Server, name: string, c: Id)
    requires Present(s, c) && BASE in s.loops
    ensures Tokens(s.(names := s.names - {name}), c) == Tokens(s, c)
  {
  }

  lemma FunctorTokens(s: Server, l: LoopId, c: Id)
    requires SysInv(s) && CanDo(s, RunFunctor(l)) && c in s.conns && Present(s, c)
    ensures BASE in s.loops && TokensMove(s, RunFunctor(l), c)
  {
    hide SysInv, Tokens, Agrees, Core, Name, KernelAfter, ConnectEstablished, ConnectDestroyed, Listing, Watched, Count;
    BaseIsThere(s);
    var f := s.loops[l].q.batch[0];
    PopRoute(s, l, c);
    TokensPop(s, l, c);
    var s1 := Popped(s, l);
    match f
    case RunEstablished(d) =>
      EstablishedKeeps(s, l);
      TokensConn(s1, d, ConnectEstablished(s.conns[d]), c);
      EstablishedNotEnding(s, l, d);
    case RunDestroyed(d) =>
      DestroyedKeeps(s, l);
      TokensConn(s1, d, ConnectDestroyed(s.conns[d]), c);
    case RunNotice(_, _) =>
    case RunRemove(d) =>
      TokensUnlisted(s1, Name(s.prefix, d), c);
      TokensPush(s1.(names := s1.names - {Name(s.prefix, d)}), s.home[d], RunDestroyed(d), c);
  }

  lemma PopRoute(s: Server, l: LoopId, c: Id)
    requires SysInv(s) && l in s.loops && s.loops[l].q.batch != [] && c in s.conns && Present(s, c)
    ensures s.loops[l].q.batch[0] == RunRemove(c) ==> l == BASE
    ensures s.loops[l].q.batch[0] == RunDestroyed(c) ==> l == s.home[c]
  {
    hide SysInv, Agrees, Listing, Watched;
    RoutedOf(s, l, c);
  }

  lemma EstablishedNotEnding(s: Server, l: LoopId, c: Id)
    requires SysInv(s) && l in s.loops && s.loops[l].q.batch != [] && s.loops[l].q.batch[0] == RunEstablished(c)
    requires c in s.conns
    ensures !Ending(s.conns[c]) && !Ending(ConnectEstablished(s.conns[c]))
  {
    hide SysInv, Agrees, Listing, Watched;
    RoutedOf(s, l, c);
    EstablishedRoutes(s.loops[l].q, l, c, s.conns[c], s.home[c]);
  }

  lemma OutputTokens(s: Server, step: Step, c: Id)
    requires SysInv(s) && CanDo(s, step) && c in s.conns && Present(s, c)
    requires step.WriteChannel? || step.UserCall?
    ensures BASE in s.loops && TokensMove(s, step, c)
  {
    hide SysInv, Tokens, Agrees, Core, KernelAfter, HandleWrite, Apply, NoticesOf, Referenced, AtCallback, Count;
    BaseIsThere(s);
    if step.UserCall? {
      EventEnding(s, step.c, step.op);
      var s1 := WithConn(s, step.c, Apply(s.conns[step.c], step.op));
      TokensConn(s, step.c, Apply(s.conns[step.c], step.op), c);
      TokensNotify(s1, s.home[step.c], step.c, NoticesOf(s.conns[step.c], step.op), c);
    } else {
      WriteTokens(s, step, c);
    }
  }

  lemma WriteTokens(s: Server, step: Step, c: Id)
    requires SysInv(s) && CanDo(s, step) && c in s.conns && Present(s, c) && step.WriteChannel?
    ensures BASE in s.loops && TokensMove(s, step, c)
  {
    hide SysInv, Tokens, Agrees, Core, KernelAfter, HandleWrite, Count;
    BaseIsThere(s);
    var p := s.loops[step.l].phase;
    var s1 := WithPhase(s, step.l, Dispatching(p.rest));
    TokensPhase(s, step.l, Dispatching(p.rest), c);
    if p.re.out {
      HandledConn(s, step.l);
      EventEnding(s, p.c, OnWrite(step.w));
      var (conn, notices) := HandleWrite(s.conns[p.c], step.w);
      TokensConn(s1, p.c, conn, c);
      TokensNotify(WithConn(s1, p.c, conn), step.l, p.c, notices, c);
    }
  }

  /** User calls and writes neither close nor destroy. */
  lemma EventEnding(s: Server, c: Id, op: Op)
    requires SysInv(s) && c in s.conns && Enabled(s.conns[c], op) && (IsUserOp(op) || op.OnWrite?)
    ensures Ending(Apply(s.conns[c], op)) <==> Ending(s.conns[c])
  {
    hide SysInv, Core;
    ConnsGood(s, c);
    WriteEnding(s.conns[c], op);
  }

  lemma WriteEnding(conn: Conn, op: Op)
    requires Enabled(conn, op) && (IsUserOp(op) || op.OnWrite?)
    requires conn.Open() ==> conn.chan.index == Added
    ensures Ending(Apply(conn, op)) <==> Ending(conn)
  {
  }

  lemma PollTokens(s: Server, step: Step, c: Id)
    requires SysInv(s) && CanDo(s, step) && c in s.conns && Present(s, c)
    requires step.PollReturns? || step.NextChannel?
    ensures BASE in s.loops && TokensMove(s, step, c)
  {
    hide SysInv, Agrees, Core, CanReport, Count, Tokens;
    BaseIsThere(s);
    TokensPhase(s, step.l, Do(s, step).loops[step.l].phase, c);
  }

  lemma BatchTokens(s: Server, step: Step, c: Id)
    requires SysInv(s) && CanDo(s, step) && c in s.conns && Present(s, c)
    requires step.StartFunctors? || step.EndFunctors?
    ensures BASE in s.loops && TokensMove(s, step, c)
  {
    hide SysInv, Agrees, Core, Count;
    BaseIsThere(s);
    var q := s.loops[step.l].q;
    var q' := if step.StartFunctors? then q.Swap() else q.Finish();
    assert q'.batch + q'.pending == q.batch + q.pending;
    SameCount(q', q, RunRemove(c));
    SameCount(q', q, RunDestroyed(c));
  }

  lemma BookTokens(s: Server, step: Step, c: Id)
    requires SysInv(s) && CanDo(s, step) && c in s.conns && Present(s, c)
    requires step.Accept? || step.Hold? || step.Release? || (step.Free? && step.c != c)
    ensures BASE in s.loops && TokensMove(s, step, c)
  {
    hide SysInv, Agrees, Core, Referenced, Name, KernelAfter, Count, AtCallback;
    BaseIsThere(s);
    if step.Accept? {
      InsertIsFresh(s);
      CountPush(s.loops[step.ioLoop].q, RunEstablished(s.nextConnId), RunRemove(c));
      CountPush(s.loops[step.ioLoop].q, RunEstablished(s.nextConnId), RunDestroyed(c));
    }
  }

  lemma StepTokens(s: Server, step: Step, c: Id)
    requires SysInv(s) && CanDo(s, step) && c in s.conns && Present(s, c) && step != Free(c)
    ensures BASE in s.loops && TokensMove(s, step, c)
  {
    hide SysInv, CanDo, TokensMove;
    if step.TestHangUp? { HangUpTokens(s, step.l, c); }
    else if step.ReadChannel? { ReadTokens(s, step.l, step.r, c); }
    else if step.CloseCallback? { CallbackTokens(s, step.l, c); }
    else if step.RunFunctor? { FunctorTokens(s, step.l, c); }
    else if step.WriteChannel? || step.UserCall? { OutputTokens(s, step, c); }
    else if step.Accept? || step.Hold? || step.Release? || step.Free? { BookTokens(s, step, c); }
    else if step.PollReturns? || step.NextChannel? { PollTokens(s, step, c); }
    else { BatchTokens(s, step, c); }
  }

  /** A closed connection that is not destroyed has something under way to its end. */
  ghost predicate NoneForgotten(s: Server) {
    BASE in s.loops && forall c | c in s.conns :: Present(s, c) && Tokens(s, c) >= One(Ending(s.conns[c]))
  }

  lemma NewHasNoTokens(s: Server, step: Step, c: Id)
    requires SysInv(s) && CanDo(s, step) && c !in s.conns && c in Do(s, step).conns
    ensures var s' := Do(s, step);
      BASE in s'.loops && Present(s', c) && Tokens(s', c) == 0 && !Ending(s'.conns[c])
  {
    hide SysInv, Agrees, Core, Name, KernelAfter, Count;
    NewOnlyByAccept(s, step, c);
    BaseIsThere(s);
    UnknownSettled(s, BASE, c);
    UnknownSettled(s, step.ioLoop, c);
    CountPush(s.loops[step.ioLoop].q, RunEstablished(c), RunRemove(c));
    CountPush(s.loops[step.ioLoop].q, RunEstablished(c), RunDestroyed(c));
  }

  lemma NewOnlyByAccept(s: Server, step: Step, c: Id)
    requires SysInv(s) && CanDo(s, step) && c !in s.conns && c in Do(s, step).conns
    ensures step.Accept? && c == s.nextConnId
  {
    hide SysInv, Agrees, Core, Name, KernelAfter, Count, Referenced, Apply, NoticesOf, HandleWrite, HandleRead,
         HandleClose;
    if step.WriteChannel? {
      var p := s.loops[step.l].phase;
      var (conn, notices) := HandleWrite(s.conns[p.c], step.w);
      NoticesQueued(WithConn(WithPhase(s, step.l, Dispatching(p.rest)), p.c, conn), step.l, p.c, notices);
    } else if step.UserCall? {
      NoticesQueued(WithConn(s, step.c, Apply(s.conns[step.c], step.op)), s.home[step.c], step.c,
                  NoticesOf(s.conns[step.c], step.op));
    }
  }

  lemma NoneForgottenKeeps(s: Server, step: Step)
    requires SysInv(s) && NoneForgotten(s) && CanDo(s, step)
    ensures NoneForgotten(Do(s, step))
  {
    hide SysInv, Do, CanDo, Tokens, Closes, Destroys;
    StepKeeps(s, step);
    var s' := Do(s, step);
    BaseIsThere(s');
    forall c | c in s'.conns ensures Present(s', c) && Tokens(s', c) >= One(Ending(s'.conns[c])) {
      ConnsThere(s', c);
      if c in s.conns {
        FreeLeaves(s, step, c);
        StepTokens(s, step, c);
      } else {
        NewHasNoTokens(s, step, c);
      }
    }
  }

  lemma ConnsThere(s: Server, c: Id)
    requires SysInv(s) && c in s.conns
    ensures Present(s, c)
  {
  }

  lemma FreeLeaves(s: Server, step: Step, c: Id)
    requires CanDo(s, step) && c in Do(s, step).conns
    ensures step != Free(c)
  {
    hide CanDo;
  }

  /** Over every run, a closed connection is on its way: it is at its close callback, or its removal or
      its destruction is queued, until it is destroyed. */
  lemma {:induction false} NoneIsForgotten(s: Server, steps: seq<Step>)
    requires Initial(s) && RunAll(s, steps).Some?
    ensures NoneForgotten(RunAll(s, steps).value)
    decreases |steps|
  {
    if steps == [] {
      assert NoneForgotten(s);
    } else {
      hide SysInv, CanDo, Do, NoneForgotten, Initial;
      EveryRunKeeps(s, steps[..|steps| - 1]);
      NoneIsForgotten(s, steps[..|steps| - 1]);
      NoneForgottenKeeps(RunAll(s, steps[..|steps| - 1]).value, steps[|steps| - 1]);
    }
  }

  // Runs in which the kernel reports no hang-up with urgent data but without input

  predicate Clean(re: Revents) { !(re.hup && re.pri && !re.epollin) }

  predicate CleanStep(step: Step) {
    step.PollReturns? ==> forall i | 0 <= i < |step.active| :: Clean(step.active[i].1)
  }

  predicate CleanSteps(steps: seq<Step>) { forall i | 0 <= i < |steps| :: CleanStep(steps[i]) }

  /** What waits to be dispatched is open. */
  predicate Waiting(conns: map<Id, Conn>, rest: seq<(Id, Revents)>) {
    && (forall i | 0 <= i < |rest| :: rest[i].0 in conns && conns[rest[i].0].Open() && Clean(rest[i].1))
    && forall i, j | 0 <= i < j < |rest| :: rest[i].0 != rest[j].0
  }

  /** What is being handled is open until its one chance to close. */
  predicate CleanPhase(conns: map<Id, Conn>, phase: Phase) {
    match phase
    case Dispatching(rest) => Waiting(conns, rest)
    case Handling(c, re, stage, rest) =>
      && Waiting(conns, rest) && (forall i | 0 <= i < |rest| :: rest[i].0 != c) && c in conns && Clean(re)
      && (stage.HangUp? ==> conns[c].Open())
      && (stage.ClosedByHangUp? ==> ClosesFirst(re))
      && (stage.Reading? ==> conns[c].Open() || ClosesFirst(re))
    case _ => true
  }

  ghost predicate Calm(conn: Conn) { Paired(conn.trace) && Placed(conn) }

  /** In such runs callbacks pair, a poller knows a connection exactly while it is open, and exactly one
      thing is under way to the end of a closed connection. */
  ghost predicate CleanInv(s: Server) {
    && BASE in s.loops
    && (forall c | c in s.conns :: Present(s, c) && Calm(s.conns[c]) && Tokens(s, c) == One(Ending(s.conns[c])))
    && forall l | l in s.loops :: CleanPhase(s.conns, s.loops[l].phase)
  }

  /** The connection a step acts on, and how. */
  function OpOf(s: Server, step: Step): Option<(Id, Op)>
    requires CanDo(s, step)
  {
    match step
    case TestHangUp(l) => var p := s.loops[l].phase; if ClosesFirst(p.re) then Some((p.c, OnClose)) else None
    case ReadChannel(l, r) => var p := s.loops[l].phase; if Reads(p.re) then Some((p.c, OnRead(r))) else None
    case WriteChannel(l, w) => var p := s.loops[l].phase; if p.re.out then Some((p.c, OnWrite(w))) else None
    case UserCall(c, op) => Some((c, op))
    case RunFunctor(l) =>
      (match s.loops[l].q.batch[0]
       case RunEstablished(c) => Some((c, Establish))
       case RunDestroyed(c) => Some((c, Destroy))
       case _ => None)
    case _ => None
  }

  lemma ConnsAfter(s: Server, step: Step)
    requires CanDo(s, step) && !step.Accept? && !step.Free?
    requires var o := OpOf(s, step); o.Some? ==> o.value.0 in s.conns && Enabled(s.conns[o.value.0], o.value.1)
    ensures Do(s, step).conns
         == match OpOf(s, step) case None => s.conns case Some((c, op)) => s.conns[c := Apply(s.conns[c], op)]
  {
    hide SysInv, Core, Name, KernelAfter, Referenced, Send, HandleWrite, HandleRead, HandleClose, ConnectDestroyed,
         ConnectEstablished, Shutdown;
    if step.WriteChannel? {
      var p := s.loops[step.l].phase;
      var (conn, notices) := HandleWrite(s.conns[p.c], step.w);
      NoticesQueued(WithConn(WithPhase(s, step.l, Dispatching(p.rest)), p.c, conn), step.l, p.c, notices);
    } else if step.UserCall? {
      NoticesQueued(WithConn(s, step.c, Apply(s.conns[step.c], step.op)), s.home[step.c], step.c,
                  NoticesOf(s.conns[step.c], step.op));
    }
  }

  /** In a clean run what a step does to a connection comes in order. */
  lemma OpIsOrderly(s: Server, step: Step)
    requires SysInv(s) && CleanInv(s) && CanDo(s, step) && OpOf(s, step).Some?
    ensures var (c, op) := OpOf(s, step).value;
      c in s.conns && Enabled(s.conns[c], op) && Orderly(s.conns[c], op) && (op.Destroy? ==> !s.conns[c].Open())
  {
    hide SysInv, Agrees, Core, Tokens, Calm, Referenced;
    if step.RunFunctor? {
      FunctorIsOrderly(s, step.l);
    } else if !step.UserCall? {
      HandledConn(s, step.l);
      assert CleanPhase(s.conns, s.loops[step.l].phase);
    }
  }

  lemma FunctorIsOrderly(s: Server, l: LoopId)
    requires SysInv(s) && CanDo(s, RunFunctor(l)) && OpOf(s, RunFunctor(l)).Some?
    ensures var (c, op) := OpOf(s, RunFunctor(l)).value;
      && c in s.conns && Enabled(s.conns[c], op) && Orderly(s.conns[c], op)
      && (op.Destroy? ==> !s.conns[c].Open())
  {
    hide SysInv, Agrees, Listing, Watched;
    var f := s.loops[l].q.batch[0];
    RoutedOf(s, l, f.c);
    if f.RunEstablished? { EstablishedRoutes(s.loops[l].q, l, f.c, s.conns[f.c], s.home[f.c]); }
    else { DestroyedRoutes(s.loops[l].q, l, f.c, s.conns[f.c], s.home[f.c]); }
  }

  lemma CalmAfter(conn: Conn, op: Op)
    requires Core(conn) && Calm(conn) && Enabled(conn, op) && Orderly(conn, op)
    ensures Calm(Apply(conn, op))
  {
    hide Core;
    ApplyCalm(conn, op);
  }

  /** Only a close ends openness. */
  lemma OpenAfter(conn: Conn, op: Op)
    requires Enabled(conn, op) && conn.Open() && !op.OnClose? && op != OnRead(Got("")) && !op.Destroy?
    ensures Apply(conn, op).Open()
  {
  }

  predicate Mentions(phase: Phase, c: Id) {
    match phase
    case Dispatching(rest) => exists i | 0 <= i < |rest| :: rest[i].0 == c
    case Handling(d, _, _, rest) => d == c || exists i | 0 <= i < |rest| :: rest[i].0 == c
    case _ => false
  }

  lemma CleanPhaseFrame(conns: map<Id, Conn>, phase: Phase, c: Id, conn: Conn)
    requires CleanPhase(conns, phase)
    requires !Mentions(phase, c) || (c in conns && (conn.Open() || !conns[c].Open())) || AtCallback(phase, c)
    ensures CleanPhase(conns[c := conn], phase)
  {
  }

  /** The phase that a step leaves a loop in is clean for the connections before the step. */
  lemma PhaseAfter(s: Server, step: Step, l: LoopId)
    requires SysInv(s) && CleanInv(s) && CanDo(s, step) && CleanStep(step) && l in s.loops
    requires step.PollReturns? || step.NextChannel? || step.TestHangUp? || step.CloseCallback? || step.ReadChannel?
    ensures l in Do(s, step).loops && CleanPhase(s.conns, Do(s, step).loops[l].phase)
  {
    hide SysInv, CanDo, Do, Tokens, Calm, CleanPhase, CleanStep;
    assert CleanPhase(s.conns, s.loops[l].phase);
    if step.PollReturns? || step.NextChannel? {
      PhaseAfterPoll(s, step, l);
    } else {
      PhaseAfterHandler(s, step, l);
    }
  }

  lemma PhaseAfterPoll(s: Server, step: Step, l: LoopId)
    requires SysInv(s) && CleanInv(s) && CanDo(s, step) && CleanStep(step) && l in s.loops
    requires step.PollReturns? || step.NextChannel?
    ensures l in Do(s, step).loops && CleanPhase(s.conns, Do(s, step).loops[l].phase)
  {
    hide SysInv, Agrees, Core, Tokens, Calm;
    assert CleanPhase(s.conns, s.loops[l].phase);
    if step.PollReturns? && step.l == l { ActiveIsOpen(s, l, step.active); }
  }

  lemma PhaseAfterHandler(s: Server, step: Step, l: LoopId)
    requires CanDo(s, step) && l in s.loops && CleanPhase(s.conns, s.loops[l].phase)
    requires step.TestHangUp? || step.CloseCallback? || step.ReadChannel?
    ensures l in Do(s, step).loops && CleanPhase(s.conns, Do(s, step).loops[l].phase)
  {
    hide CanDo, Do;
    StageOf(s, step, l);
  }

  function StageAfter(p: Phase, step: Step): Stage
    requires p.Handling?
  {
    match step
    case TestHangUp(_) => if ClosesFirst(p.re) then ClosedByHangUp else Reading
    case ReadChannel(_, r) => if Reads(p.re) && r == Got("") then ClosedByRead else Writing
    case _ => if p.stage.ClosedByHangUp? then Reading else Writing
  }

  lemma StageOf(s: Server, step: Step, l: LoopId)
    requires CanDo(s, step) && l in s.loops && (step.TestHangUp? || step.CloseCallback? || step.ReadChannel?)
    ensures step.l in s.loops && s.loops[step.l].phase.Handling? && l in Do(s, step).loops
    ensures Do(s, step).loops[l].phase
         == if l == step.l then s.loops[l].phase.(stage := StageAfter(s.loops[l].phase, step)) else s.loops[l].phase
    ensures var stage := s.loops[step.l].phase.stage;
      match step
      case TestHangUp(_) => stage.HangUp?
      case ReadChannel(_, _) => stage.Reading?
      case _ => stage.ClosedByHangUp? || stage.ClosedByRead?
  {
    hide Name, KernelAfter, HandleClose, HandleRead;
  }

  lemma PhaseStays(s: Server, step: Step, l: LoopId)
    requires CanDo(s, step) && l in s.loops
    requires !(step.PollReturns? || step.NextChannel? || step.TestHangUp? || step.CloseCallback? || step.ReadChannel?)
    ensures l in Do(s, step).loops
    ensures var phase := Do(s, step).loops[l].phase;
      || phase == s.loops[l].phase || phase.Running? || phase.InPoll?
      || (s.loops[l].phase.Handling? && phase == Dispatching(s.loops[l].phase.rest))
  {
    hide Core, Name, KernelAfter, Referenced, Apply, NoticesOf, HandleWrite, ConnectDestroyed, ConnectEstablished;
    if step.WriteChannel? {
      var p := s.loops[step.l].phase;
      var (conn, notices) := HandleWrite(s.conns[p.c], step.w);
      NoticesQueued(WithConn(WithPhase(s, step.l, Dispatching(p.rest)), p.c, conn), step.l, p.c, notices);
    } else if step.UserCall? {
      NoticesQueued(WithConn(s, step.c, Apply(s.conns[step.c], step.op)), s.home[step.c], step.c,
                   NoticesOf(s.conns[step.c], step.op));
    }
  }

  /** What a poll reports is open: a closed connection is not with its poller. */
  lemma ActiveIsOpen(s: Server, l: LoopId, active: seq<(Id, Revents)>)
    requires SysInv(s) && CleanInv(s) && CanDo(s, PollReturns(l, active)) && CleanStep(PollReturns(l, active))
    ensures Waiting(s.conns, active)
  {
    hide SysInv, Agrees, Core, Tokens, CleanPhase, Paired;
    forall i | 0 <= i < |active| ensures active[i].0 in s.conns && s.conns[active[i].0].Open() {
      WatchedIsHere(s, l, active[i].0);
      ConnsGood(s, active[i].0);
      AgreesIndex(s.conns[active[i].0]);
    }
  }

  /** A loop's phase mentions connections of that loop only, none of them just established or gone. */
  lemma MentionsHere(s: Server, l: LoopId, c: Id)
    requires SysInv(s) && l in s.loops && Mentions(s.loops[l].phase, c)
    ensures Here(s.conns, s.home, l, c)
  {
    hide SysInv;
    LoopsGood(s, l);
  }

  lemma PhaseCleanBefore(s: Server, step: Step, l: LoopId)
    requires SysInv(s) && CleanInv(s) && CanDo(s, step) && CleanStep(step) && l in s.loops
    ensures l in Do(s, step).loops && CleanPhase(s.conns, Do(s, step).loops[l].phase)
  {
    hide SysInv, CanDo, Do, Tokens, Calm;
    if step.PollReturns? || step.NextChannel? || step.TestHangUp? || step.CloseCallback? || step.ReadChannel? {
      PhaseAfter(s, step, l);
    } else {
      PhaseStays(s, step, l);
      assert CleanPhase(s.conns, s.loops[l].phase);
    }
  }

  /** A step that closes leaves its own loop at the callback and the phases of others as they were. */
  lemma ClosingPhase(s: Server, step: Step, l: LoopId)
    requires CanDo(s, step) && l in s.loops && OpOf(s, step).Some?
    requires var op := OpOf(s, step).value.1; op.OnClose? || op == OnRead(Got(""))
    requires step.TestHangUp? || step.ReadChannel?
    ensures l in Do(s, step).loops
    ensures if l == step.l then AtCallback(Do(s, step).loops[l].phase, OpOf(s, step).value.0)
            else Do(s, step).loops[l].phase == s.loops[l].phase && s.home[OpOf(s, step).value.0] == step.l
  {
    hide Core, Name, KernelAfter, HandleClose, HandleRead;
  }

  lemma PhaseKeepsClean(s: Server, step: Step, l: LoopId)
    requires SysInv(s) && CleanInv(s) && CanDo(s, step) && CleanStep(step) && l in s.loops
    requires !step.Accept? && !step.Free?
    ensures l in Do(s, step).loops && CleanPhase(Do(s, step).conns, Do(s, step).loops[l].phase)
  {
    hide SysInv, CleanInv, CanDo, Do, OpOf, Apply, CleanPhase, Enabled, Orderly, Mentions, AtCallback;
    PhaseCleanBefore(s, step, l);
    var phase := Do(s, step).loops[l].phase;
    var o := OpOf(s, step);
    if o.Some? { OpIsOrderly(s, step); }
    ConnsAfter(s, step);
    if o.Some? {
      var (c, op) := o.value;
      OpSteps(s, step);
      if op.OnClose? || op == OnRead(Got("")) {
        ClosingPhase(s, step, l);
        if l != step.l && Mentions(phase, c) { MentionsHere(s, l, c); }
      } else if s.conns[c].Open() {
        OpenAfter(s.conns[c], op);
      }
      CleanPhaseFrame(s.conns, phase, c, Apply(s.conns[c], op));
    }
  }

  lemma OpSteps(s: Server, step: Step)
    requires CanDo(s, step) && OpOf(s, step).Some?
    requires var (c, op) := OpOf(s, step).value; c in s.conns && (op.Destroy? ==> !s.conns[c].Open())
    ensures var op := OpOf(s, step).value.1;
      (op.OnClose? || op == OnRead(Got(""))) ==> step.TestHangUp? || step.ReadChannel?
  {
    hide HandlingOf, Referenced;
  }

  lemma AcceptClean(s: Server, step: Step, l: LoopId)
    requires SysInv(s) && CleanInv(s) && CanDo(s, step) && step.Accept? && l in s.loops
    ensures l in Do(s, step).loops && CleanPhase(Do(s, step).conns, Do(s, step).loops[l].phase)
  {
    hide SysInv, Tokens, Calm, Name, KernelAfter, CleanPhase, Core;
    InsertIsFresh(s);
    var phase := s.loops[l].phase;
    if Mentions(phase, s.nextConnId) { MentionsHere(s, l, s.nextConnId); }
    assert CleanPhase(s.conns, phase);
    CleanPhaseFrame(s.conns, phase, s.nextConnId, Do(s, step).conns[s.nextConnId]);
    assert Do(s, step).conns == s.conns[s.nextConnId := Do(s, step).conns[s.nextConnId]];
  }

  lemma FreeClean(s: Server, c: Id, l: LoopId)
    requires SysInv(s) && CleanInv(s) && c in s.conns && !Referenced(s, c) && l in s.loops
    ensures CleanPhase(Freed(s, c).conns, s.loops[l].phase)
  {
    FreedOnlyWhenGone(s, c);
    NotMentioned(s, c, l);
    assert CleanPhase(s.conns, s.loops[l].phase);
    hide SysInv, CleanInv, Referenced, Core;
    CleanWithout(s.conns, s.loops[l].phase, c);
  }

  lemma CleanWithout(conns: map<Id, Conn>, phase: Phase, c: Id)
    requires CleanPhase(conns, phase) && c in conns && !conns[c].Open() && !(phase.Handling? && phase.c == c)
    ensures CleanPhase(conns - {c}, phase)
  {
  }

  lemma CalmKeeps(s: Server, step: Step, c: Id)
    requires SysInv(s) && CleanInv(s) && CanDo(s, step) && CleanStep(step) && c in Do(s, step).conns
    ensures Calm(Do(s, step).conns[c])
  {
    hide SysInv, CanDo, Do, OpOf, Apply, Calm, Enabled, Orderly, Core, Tokens, CleanPhase, CleanStep;
    if step.Accept? || step.Free? {
      CalmBook(s, step, c);
    } else {
      var o := OpOf(s, step);
      if o.Some? { OpIsOrderly(s, step); }
      ConnsAfter(s, step);
      if o.Some? && o.value.0 == c {
        CoreOf(s, c);
        CalmAfter(s.conns[c], o.value.1);
      }
    }
  }

  lemma CoreOf(s: Server, c: Id)
    requires SysInv(s) && c in s.conns
    ensures Core(s.conns[c])
  {
    hide SysInv, Core;
    ConnsGood(s, c);
  }

  lemma CalmBook(s: Server, step: Step, c: Id)
    requires SysInv(s) && CleanInv(s) && CanDo(s, step) && (step.Accept? || step.Free?) && c in Do(s, step).conns
    ensures Calm(Do(s, step).conns[c])
  {
    hide SysInv, Tokens, Calm, Name, KernelAfter, CleanPhase, Core, Referenced;
    if step.Accept? && c == s.nextConnId { FreshCalm(step.config); }
  }

  lemma FreshCalm(config: Config)
    ensures Calm(FreshConn(config)) && Calm(ConnectEstablished(FreshConn(config)))
  {
    PairedSnoc([], Up);
    assert [] + [Up] == [Up];
  }

  lemma ExactTokensKeep(s: Server, step: Step, c: Id)
    requires SysInv(s) && CleanInv(s) && CanDo(s, step) && CleanStep(step) && c in Do(s, step).conns
    ensures var s' := Do(s, step); BASE in s'.loops && Present(s', c) && Tokens(s', c) == One(Ending(s'.conns[c]))
  {
    hide SysInv, Do, CanDo, Tokens, Calm, CleanPhase, Closes, Destroys, Ending;
    if c in s.conns {
      FreeLeaves(s, step, c);
      StepTokens(s, step, c);
      if Closes(s, step, c) { ClosesOpen(s, step, c); }
      if Destroys(s, step, c) { DestroysEnding(s, step, c); }
    } else {
      NewHasNoTokens(s, step, c);
    }
  }

  lemma ClosesOpen(s: Server, step: Step, c: Id)
    requires SysInv(s) && CleanInv(s) && CanDo(s, step) && Closes(s, step, c)
    ensures c in s.conns && !Ending(s.conns[c]) && !Destroys(s, step, c)
  {
    hide SysInv, CleanInv;
    OpIsOrderly(s, step);
  }

  lemma DestroysEnding(s: Server, step: Step, c: Id)
    requires SysInv(s) && CanDo(s, step) && Destroys(s, step, c) && c in s.conns && Present(s, c) && BASE in s.loops
    ensures Tokens(s, c) > 0 && !Closes(s, step, c)
  {
    hide SysInv, Agrees, Listing, Watched;
    RoutedOf(s, step.l, c);
    DestroyedRoutes(s.loops[step.l].q, step.l, c, s.conns[c], s.home[c]);
  }

  lemma CleanKeeps(s: Server, step: Step)
    requires SysInv(s) && CleanInv(s) && CanDo(s, step) && CleanStep(step)
    ensures CleanInv(Do(s, step))
  {
    hide SysInv, CleanInv, CanDo, Do, Tokens, Calm, CleanPhase, Ending, CleanStep;
    var s' := Do(s, step);
    StepKeeps(s, step);
    BaseIsThere(s');
    SameLoops(s, step);
    forall c | c in s'.conns
      ensures Present(s', c) && Calm(s'.conns[c]) && Tokens(s', c) == One(Ending(s'.conns[c]))
    {
      CalmKeeps(s, step, c);
      ExactTokensKeep(s, step, c);
    }
    forall l | l in s'.loops ensures CleanPhase(s'.conns, s'.loops[l].phase) {
      if step.Accept? { AcceptClean(s, step, l); }
      else if step.Free? { FreeCleanStep(s, step.c, l); }
      else { PhaseKeepsClean(s, step, l); }
    }
    CleanInvOf(s');
  }

  lemma CleanInvOf(s: Server)
    requires BASE in s.loops
    requires forall c | c in s.conns :: Present(s, c) && Calm(s.conns[c]) && Tokens(s, c) == One(Ending(s.conns[c]))
    requires forall l | l in s.loops :: CleanPhase(s.conns, s.loops[l].phase)
    ensures CleanInv(s)
  {
    hide Calm, CleanPhase;
  }

  lemma FreeCleanStep(s: Server, c: Id, l: LoopId)
    requires SysInv(s) && CleanInv(s) && CanDo(s, Free(c)) && l in s.loops
    ensures var s' := Do(s, Free(c)); l in s'.loops && CleanPhase(s'.conns, s'.loops[l].phase)
  {
    hide SysInv, CleanInv, Referenced, CleanPhase;
    FreeClean(s, c, l);
  }

  lemma SameLoops(s: Server, step: Step)
    requires CanDo(s, step)
    ensures Do(s, step).loops.Keys == s.loops.Keys
  {
    hide Core, Name, KernelAfter, Referenced, Apply, NoticesOf, HandleWrite, HandleRead, HandleClose, ConnectDestroyed,
         ConnectEstablished;
    if step.WriteChannel? {
      var p := s.loops[step.l].phase;
      var (conn, notices) := HandleWrite(s.conns[p.c], step.w);
      NoticesQueued(WithConn(WithPhase(s, step.l, Dispatching(p.rest)), p.c, conn), step.l, p.c, notices);
    } else if step.UserCall? {
      NoticesQueued(WithConn(s, step.c, Apply(s.conns[step.c], step.op)), s.home[step.c], step.c,
                  NoticesOf(s.conns[step.c], step.op));
    }
  }

  /** In every run without such a poll result each connection's history is legal too (`CallbacksPair`), a
      poller knows it exactly while it is open, and exactly one thing is under way to its end once it is
      closed: it is removed once and destroyed once. */
  lemma {:induction false} EveryCleanRun(s: Server, steps: seq<Step>)
    requires Initial(s) && RunAll(s, steps).Some? && CleanSteps(steps)
    ensures CleanInv(RunAll(s, steps).value)
    ensures forall c | c in RunAll(s, steps).value.conns :: Inv(RunAll(s, steps).value.conns[c])
    decreases |steps|
  {
    if steps == [] {
      assert CleanInv(s);
    } else {
      var n := |steps| - 1;
      hide SysInv, CanDo, Do, Initial, Inv, CleanInv, CleanStep;
      assert forall i | 0 <= i < n :: steps[..n][i] == steps[i];
      EveryRunKeeps(s, steps[..n]);
      EveryCleanRun(s, steps[..n]);
      CleanKeeps(RunAll(s, steps[..n]).value, steps[n]);
      EveryRunKeeps(s, steps);
      forall c | c in RunAll(s, steps).value.conns ensures Inv(RunAll(s, steps).value.conns[c]) {
        CleanIsInv(RunAll(s, steps).value, c);
      }
    }
  }

  lemma CleanIsInv(s: Server, c: Id)
    requires SysInv(s) && CleanInv(s) && c in s.conns
    ensures Inv(s.conns[c])
  {
    hide SysInv, Core, CleanPhase, Tokens;
    CoreOf(s, c);
  }
}
