/** Progress in the system of `Servers`: loops left to themselves destroy and free every closed connection. */
module ServerProgress {
  import opened Text
  import opened Buffers
  import opened FunctorQueues
  import opened ConnSpec
  import opened Servers
  import opened ServerEnds

  // A loop left to itself

  /** What a loop does next when sockets have nothing to give or take and the poller reports nothing. */
  function Next(loop: Loop, l: LoopId): Step {
    match loop.phase
    case InPoll => PollReturns(l, [])
    case Dispatching(rest) => if rest == [] then StartFunctors(l) else NextChannel(l)
    case Handling(_, _, stage, _) =>
      (match stage
       case HangUp => TestHangUp(l)
       case Reading => ReadChannel(l, Failed)
       case Writing => WriteChannel(l, WouldBlock)
       case _ => CloseCallback(l))
    case Running => if loop.q.batch == [] then EndFunctors(l) else RunFunctor(l)
  }

  /** Steps of loops left to themselves: nothing arrives, and the user does nothing. */
  predicate Undisturbed(step: Step) {
    match step
    case PollReturns(_, active) => active == []
    case ReadChannel(_, r) => r == Failed
    case WriteChannel(_, w) => w == WouldBlock
    case NextChannel(_) => true
    case TestHangUp(_) => true
    case CloseCallback(_) => true
    case StartFunctors(_) => true
    case RunFunctor(_) => true
    case EndFunctors(_) => true
    case _ => false
  }

  function PhaseAfter(loop: Loop): Phase {
    match loop.phase
    case InPoll => Dispatching([])
    case Dispatching(rest) => if rest == [] then Running else Handling(rest[0].0, rest[0].1, HangUp, rest[1..])
    case Handling(_, re, stage, rest) =>
      (match stage
       case HangUp => loop.phase.(stage := if ClosesFirst(re) then ClosedByHangUp else Reading)
       case Writing => Dispatching(rest)
       case ClosedByHangUp => loop.phase.(stage := Reading)
       case _ => loop.phase.(stage := Writing))
    case Running => if loop.q.batch == [] then InPoll else Running
  }

  function HomeOf(s: Server, c: Id): LoopId { if c in s.home then s.home[c] else BASE }

  /** The functor that the step queues, and where. */
  function Pushes(s: Server, l: LoopId): Option<(LoopId, Functor)>
    requires l in s.loops
  {
    var loop := s.loops[l];
    if loop.phase.Handling? && AtCallback(loop.phase, loop.phase.c) then
      if l == BASE then Some((HomeOf(s, loop.phase.c), RunDestroyed(loop.phase.c)))
      else Some((BASE, RunRemove(loop.phase.c)))
    else if loop.phase.Running? && loop.q.batch != [] && loop.q.batch[0].RunRemove? then
      Some((HomeOf(s, loop.q.batch[0].c), RunDestroyed(loop.q.batch[0].c)))
    else None
  }

  /** The loop's own change of its queue. */
  function QueueAfter(loop: Loop): Queue<Functor> {
    if loop.phase == Dispatching([]) && loop.q.batch == [] && loop.q.ran == [] then loop.q.Swap()
    else if loop.phase.Running? then if loop.q.batch == [] then loop.q.Finish() else loop.q.RunNext()
    else loop.q
  }

  lemma NextCan(s: Server, l: LoopId)
    requires SysInv(s) && l in s.loops
    ensures CanDo(s, Next(s.loops[l], l)) && Undisturbed(Next(s.loops[l], l))
  {
    hide SysInv;
    BaseIsThere(s);
    LoopsGood(s, l);
    if s.loops[l].phase.Handling? { ConnsThere(s, s.loops[l].phase.c); }
    if s.loops[l].q.batch != [] {
      assert s.loops[l].q.batch[0] in s.loops[l].q.batch + s.loops[l].q.pending + s.loops[l].q.ran;
      ConnsThere(s, s.loops[l].q.batch[0].c);
    }
  }

  /** The phase and the queue of loop `k` after the step of loop `l`. */
  ghost predicate Moved(s: Server, l: LoopId, k: LoopId, s': Server)
    requires l in s.loops && k in s.loops
  {
    && s'.loops.Keys == s.loops.Keys && s'.home == s.home && s'.held == s.held
    && s'.loops[k].phase == (if k == l then PhaseAfter(s.loops[l]) else s.loops[k].phase)
    && var q := if k == l then QueueAfter(s.loops[l]) else s.loops[k].q;
       s'.loops[k].q == match Pushes(s, l) case Some((h, f)) => (if h == k then q.Push(f) else q) case None => q
  }

  lemma NextMoves(s: Server, l: LoopId, k: LoopId)
    requires SysInv(s) && l in s.loops && k in s.loops
    ensures CanDo(s, Next(s.loops[l], l))
    ensures Moved(s, l, k, Do(s, Next(s.loops[l], l)))
  {
    hide SysInv, CanDo, Do, Moved, HandlingOf;
    NextCan(s, l);
    var loop := s.loops[l];
    if loop.phase.Handling? {
      HandlerCan(s, l);
      match loop.phase.stage
      case HangUp => HangUpMoves(s, l, k);
      case Reading => ReadMoves(s, l, k);
      case Writing => WriteMoves(s, l, k);
      case _ => CallbackMoves(s, l, k);
    } else if loop.phase.Running? && loop.q.batch != [] {
      FunctorMoves(s, l, k);
    } else if loop.phase.Running? {
      EndMoves(s, l, k);
    } else if loop.phase == Dispatching([]) {
      StartMoves(s, l, k);
    } else {
      PollMoves(s, l, k);
    }
  }

  lemma HandlerCan(s: Server, l: LoopId)
    requires SysInv(s) && l in s.loops && s.loops[l].phase.Handling?
    ensures HandlingOf(s, l) && BASE in s.loops
  {
    hide SysInv;
    BaseIsThere(s);
    LoopsGood(s, l);
    ConnsThere(s, s.loops[l].phase.c);
  }

  lemma HangUpMoves(s: Server, l: LoopId, k: LoopId)
    requires HandlingOf(s, l) && k in s.loops && s.loops[l].phase.stage.HangUp?
    ensures CanDo(s, TestHangUp(l)) && Moved(s, l, k, Do(s, TestHangUp(l)))
  {
    hide KernelAfter, HandleClose;
  }

  lemma CallbackMoves(s: Server, l: LoopId, k: LoopId)
    requires HandlingOf(s, l) && k in s.loops && BASE in s.loops && AtCallback(s.loops[l].phase, s.loops[l].phase.c)
    ensures CanDo(s, CloseCallback(l)) && Moved(s, l, k, Do(s, CloseCallback(l)))
  {
    hide Name;
  }

  lemma ReadMoves(s: Server, l: LoopId, k: LoopId)
    requires HandlingOf(s, l) && k in s.loops && s.loops[l].phase.stage.Reading?
    ensures CanDo(s, ReadChannel(l, Failed)) && Moved(s, l, k, Do(s, ReadChannel(l, Failed)))
  {
    hide KernelAfter;
  }

  lemma WriteMoves(s: Server, l: LoopId, k: LoopId)
    requires HandlingOf(s, l) && k in s.loops && s.loops[l].phase.stage.Writing?
    ensures CanDo(s, WriteChannel(l, WouldBlock)) && Moved(s, l, k, Do(s, WriteChannel(l, WouldBlock)))
  {
    hide KernelAfter;
  }

  lemma FunctorMoves(s: Server, l: LoopId, k: LoopId)
    requires l in s.loops && k in s.loops && CanDo(s, RunFunctor(l))
    ensures Moved(s, l, k, Do(s, RunFunctor(l)))
  {
    hide KernelAfter, Name, ConnectEstablished, ConnectDestroyed;
  }

  lemma StartMoves(s: Server, l: LoopId, k: LoopId)
    requires l in s.loops && k in s.loops && CanDo(s, StartFunctors(l))
    ensures Moved(s, l, k, Do(s, StartFunctors(l)))
  {
  }

  lemma EndMoves(s: Server, l: LoopId, k: LoopId)
    requires l in s.loops && k in s.loops && CanDo(s, EndFunctors(l))
    ensures Moved(s, l, k, Do(s, EndFunctors(l)))
  {
  }

  lemma PollMoves(s: Server, l: LoopId, k: LoopId)
    requires l in s.loops && k in s.loops && CanDo(s, Next(s.loops[l], l))
    requires s.loops[l].phase.InPoll? || (s.loops[l].phase.Dispatching? && s.loops[l].phase.rest != [])
    ensures Moved(s, l, k, Do(s, Next(s.loops[l], l)))
  {
    hide DoRunFunctor, DoTestHangUp, DoCloseCallback, DoReadChannel, DoWriteChannel;
  }

  // What such a step keeps of a closed connection

  lemma NextOp(s: Server, l: LoopId)
    requires SysInv(s) && l in s.loops
    ensures var step := Next(s.loops[l], l);
      && CanDo(s, step) && !step.Accept? && !step.Free?
      && (OpOf(s, step).Some? ==>
            var (c, op) := OpOf(s, step).value;
            c in s.conns && Enabled(s.conns[c], op) && !op.UserSend? && !op.UserShutdown? && !op.Retrieve?
            && (op.OnRead? ==> op.r.Failed?) && (op.OnWrite? ==> op.w.WouldBlock?))
  {
    hide SysInv, Core, Agrees, Listing, Watched, GoodPhase;
    NextCan(s, l);
    var loop := s.loops[l];
    if loop.phase.Handling? {
      HandledConn(s, l);
    } else if loop.phase.Running? && loop.q.batch != [] && loop.q.batch[0].RunEstablished? {
      var c := loop.q.batch[0].c;
      RoutedOf(s, l, c);
      EstablishedRoutes(loop.q, l, c, s.conns[c], s.home[c]);
    }
  }

  lemma StaysClosed(conn: Conn, op: Op)
    requires Enabled(conn, op) && conn.state.Disconnected?
    requires !op.UserSend? && !op.UserShutdown? && !op.Retrieve? && (op.OnRead? ==> op.r.Failed?)
    requires op.OnWrite? ==> op.w.WouldBlock?
    ensures Apply(conn, op).state.Disconnected? && (Gone(conn) ==> Gone(Apply(conn, op)))
  {
  }

  /** What undisturbed steps keep. */
  ghost predicate Later(s: Server, s': Server, c: Id) {
    && SysInv(s') && s'.loops.Keys == s.loops.Keys && s'.home == s.home && s'.held == s.held
    && c in s'.conns
    && (c in s.conns && s.conns[c].state.Disconnected? ==> s'.conns[c].state.Disconnected?)
    && (c in s.conns && Gone(s.conns[c]) ==> Gone(s'.conns[c]))
  }

  lemma NextIsLater(s: Server, l: LoopId, c: Id)
    requires SysInv(s) && l in s.loops && c in s.conns
    ensures CanDo(s, Next(s.loops[l], l)) && Later(s, Do(s, Next(s.loops[l], l)), c)
  {
    hide SysInv, CanDo, Do, Next, Apply, Enabled, PhaseAfter, QueueAfter, Pushes;
    var step := Next(s.loops[l], l);
    NextOp(s, l);
    ConnsAfter(s, step);
    StepKeeps(s, step);
    NextMoves(s, l, l);
    if s.conns[c].state.Disconnected? && OpOf(s, step).Some? && OpOf(s, step).value.0 == c {
      StaysClosed(s.conns[c], OpOf(s, step).value.1);
    }
  }

  ghost predicate Leads(s: Server, steps: seq<Step>, s': Server, c: Id) {
    && (forall i | 0 <= i < |steps| :: Undisturbed(steps[i])) && RunAll(s, steps) == Some(s') && Later(s, s', c)
  }

  lemma {:induction false} RunAllAppend(s: Server, xs: seq<Step>, ys: seq<Step>)
    requires RunAll(s, xs).Some?
    ensures RunAll(s, xs + ys) == RunAll(RunAll(s, xs).value, ys)
    decreases |ys|
  {
    hide CanDo, Do;
    if ys == [] {
      assert xs + ys == xs;
    } else {
      assert (xs + ys)[..|xs + ys| - 1] == xs + ys[..|ys| - 1];
      RunAllAppend(s, xs, ys[..|ys| - 1]);
    }
  }

  lemma NoSteps(s: Server, c: Id)
    requires SysInv(s) && c in s.conns
    ensures Leads(s, [], s, c)
  {
    hide SysInv;
  }

  /** One step, and then more. */
  lemma StepThen(s: Server, l: LoopId, steps: seq<Step>, s': Server, c: Id)
    requires SysInv(s) && l in s.loops && c in s.conns
    requires CanDo(s, Next(s.loops[l], l)) && Leads(Do(s, Next(s.loops[l], l)), steps, s', c)
    ensures Leads(s, [Next(s.loops[l], l)] + steps, s', c)
  {
    hide SysInv, CanDo, Do, Next, Undisturbed;
    var first := [Next(s.loops[l], l)];
    NextCan(s, l);
    NextIsLater(s, l, c);
    assert first[..0] == [] && RunAll(s, first) == Some(Do(s, first[0]));
    RunAllAppend(s, first, steps);
  }

  lemma Chain(s: Server, xs: seq<Step>, s1: Server, ys: seq<Step>, s2: Server, c: Id)
    requires Leads(s, xs, s1, c) && Leads(s1, ys, s2, c)
    ensures Leads(s, xs + ys, s2, c)
  {
    hide SysInv, Undisturbed;
    RunAllAppend(s, xs, ys);
  }

  // A loop reaches the functors it has queued

  predicate Runs(loop: Loop) { loop.phase.Running? && loop.q.batch != [] }

  function Remaining(loop: Loop): seq<Functor> {
    if Runs(loop) then loop.q.Todo()[1..] else loop.q.Todo()
  }

  function Added(s: Server, l: LoopId, k: LoopId): seq<Functor>
    requires l in s.loops
  {
    match Pushes(s, l) case Some((h, f)) => (if h == k then [f] else []) case None => []
  }

  /** How many stages a loop is from running functors. */
  function Far(loop: Loop): nat {
    match loop.phase
    case Running => if loop.q.batch == [] then 3 else 0
    case InPoll => 2
    case _ => 1
  }

  /** How many steps are left in dispatching what a poll returned. */
  function Work(phase: Phase): nat {
    match phase
    case Dispatching(rest) => 6 * |rest|
    case Handling(_, _, stage, rest) =>
      6 * |rest| + (match stage case HangUp => 5 case ClosedByHangUp => 4 case Reading => 3 case ClosedByRead => 2
                                case Writing => 1)
    case _ => 0
  }

  lemma NextTodo(s: Server, l: LoopId, k: LoopId)
    requires SysInv(s) && l in s.loops && k in s.loops
    ensures CanDo(s, Next(s.loops[l], l))
    ensures var s' := Do(s, Next(s.loops[l], l));
      && k in s'.loops
      && s'.loops[k].q.Todo() == (if k == l then Remaining(s.loops[l]) else s.loops[k].q.Todo()) + Added(s, l, k)
  {
    hide SysInv, CanDo, Do, Pushes, Next;
    NextMoves(s, l, k);
    LoopsGood(s, l);
    var q := if k == l then QueueAfter(s.loops[l]) else s.loops[k].q;
    QueueTodo(s.loops[l]);
    if Added(s, l, k) != [] { PushTodo(q, Added(s, l, k)[0]); } else { assert q.Todo() + [] == q.Todo(); }
  }

  lemma PushTodo(q: Queue<Functor>, f: Functor)
    ensures q.Push(f).Todo() == q.Todo() + [f]
  {
  }

  lemma QueueTodo(loop: Loop)
    ensures QueueAfter(loop).Todo() == Remaining(loop)
  {
    var q := loop.q;
    assert [] + q.pending == q.pending + [];
    if q.batch != [] { assert (q.batch + q.pending)[1..] == q.batch[1..] + q.pending; }
  }

  lemma NextIsCloser(s: Server, l: LoopId)
    requires SysInv(s) && l in s.loops && !Runs(s.loops[l]) && s.loops[l].q.Todo() != []
    ensures CanDo(s, Next(s.loops[l], l)) && l in Do(s, Next(s.loops[l], l)).loops
    ensures var (loop, loop') := (s.loops[l], Do(s, Next(s.loops[l], l)).loops[l]);
      Far(loop') < Far(loop) || (Far(loop') == Far(loop) && Work(loop'.phase) < Work(loop.phase))
  {
    hide SysInv, CanDo, Do, Pushes, Next;
    NextMoves(s, l, l);
    LoopsGood(s, l);
  }

  // It runs out of functors about a destroyed connection

  function Weigh(f: Functor, c: Id): nat { if f.c != c then 0 else if f.RunRemove? then 2 else 1 }

  /** How many functors about `c` are still to be run: a removal queues one more. */
  function Weight(todo: seq<Functor>, c: Id): nat {
    if todo == [] then 0 else Weigh(todo[0], c) + Weight(todo[1..], c)
  }

  lemma {:induction false} WeightSnoc(todo: seq<Functor>, f: Functor, c: Id)
    ensures Weight(todo + [f], c) == Weight(todo, c) + Weigh(f, c)
  {
    if todo == [] {
      assert todo + [f] == [f];
    } else {
      assert (todo + [f])[1..] == todo[1..] + [f];
      WeightSnoc(todo[1..], f, c);
    }
  }

  lemma {:induction false} WeightNone(todo: seq<Functor>, c: Id)
    ensures Weight(todo, c) == 0 <==> forall i | 0 <= i < |todo| :: todo[i].c != c
    decreases |todo|
  {
    if todo == [] {
    } else {
      WeightNone(todo[1..], c);
      assert forall i | 1 <= i < |todo| :: todo[i] == todo[1..][i - 1];
    }
  }

  /** Back in poll, with no functor about `c`. */
  predicate Quiet(loop: Loop, c: Id) { loop.phase.InPoll? && !QueueMentions(loop.q, c) }

  /** Steps of loop `l` leave no more functors about `c` on it, and loops that have none as they are, unless they
      may run its removal. */
  ghost predicate Settles(s: Server, s': Server, l: LoopId, c: Id)
    requires l in s.loops
  {
    && s'.loops.Keys == s.loops.Keys
    && Weight(s'.loops[l].q.Todo(), c) <= Weight(s.loops[l].q.Todo(), c)
    && (l != BASE ==> forall k | k in s.loops && k != l && Quiet(s.loops[k], c) :: Quiet(s'.loops[k], c))
  }

  lemma SettlesNone(s: Server, l: LoopId, c: Id)
    requires l in s.loops
    ensures Settles(s, s, l, c)
  {
  }

  lemma SettlesOn(s: Server, s1: Server, s2: Server, l: LoopId, c: Id)
    requires l in s.loops && Settles(s, s1, l, c) && Settles(s1, s2, l, c)
    ensures Settles(s, s2, l, c)
  {
  }

  /** Once `c` is destroyed only its removal queues another functor about it. */
  lemma AddedAbout(s: Server, l: LoopId, k: LoopId, c: Id)
    requires SysInv(s) && l in s.loops && k in s.loops && c in s.conns && Gone(s.conns[c])
    ensures Added(s, l, k) == []
         || Added(s, l, k)[0].c != c
         || (l == BASE && Runs(s.loops[l]) && s.loops[l].q.batch[0] == RunRemove(c)
             && Added(s, l, k) == [RunDestroyed(c)])
  {
    hide SysInv, Agrees, Listing, Watched;
    RoutedOf(s, l, c);
    if s.loops[l].phase.Handling? {
      HandlerCan(s, l);
      HandledConn(s, l);
    }
  }

  lemma NextWeight(s: Server, l: LoopId, c: Id)
    requires SysInv(s) && l in s.loops && c in s.conns && Gone(s.conns[c])
    ensures CanDo(s, Next(s.loops[l], l)) && l in Do(s, Next(s.loops[l], l)).loops
    ensures var (before, after) := (s.loops[l], Do(s, Next(s.loops[l], l)).loops[l]);
      Weight(after.q.Todo(), c) + One(Runs(before) && before.q.batch[0].c == c) <= Weight(before.q.Todo(), c)
  {
    hide SysInv, CanDo, Do, Next, Gone, Added, Weight;
    var todo := s.loops[l].q.Todo();
    NextTodo(s, l, l);
    AddedAbout(s, l, l, c);
    var added := Added(s, l, l);
    if Runs(s.loops[l]) { WeightFirst(todo, c); }
    if added == [] {
      assert Remaining(s.loops[l]) + added == Remaining(s.loops[l]);
    } else {
      AddedOne(s, l, l);
      WeightSnoc(Remaining(s.loops[l]), added[0], c);
    }
  }

  lemma AddedOne(s: Server, l: LoopId, k: LoopId)
    requires l in s.loops && Added(s, l, k) != []
    ensures Added(s, l, k) == [Added(s, l, k)[0]]
  {
  }

  lemma WeightFirst(todo: seq<Functor>, c: Id)
    requires todo != []
    ensures Weight(todo, c) == Weigh(todo[0], c) + Weight(todo[1..], c)
  {
  }

  lemma NextQuiet(s: Server, l: LoopId, k: LoopId, c: Id)
    requires SysInv(s) && l in s.loops && c in s.conns && Gone(s.conns[c])
    requires l != BASE && k in s.loops && k != l && Quiet(s.loops[k], c)
    ensures CanDo(s, Next(s.loops[l], l)) && k in Do(s, Next(s.loops[l], l)).loops
    ensures Quiet(Do(s, Next(s.loops[l], l)).loops[k], c)
  {
    hide SysInv, CanDo, Do, Next, Gone;
    NextMoves(s, l, k);
    AddedAbout(s, l, k, c);
  }

  lemma NextSettles(s: Server, l: LoopId, c: Id)
    requires SysInv(s) && l in s.loops && c in s.conns && Gone(s.conns[c])
    ensures CanDo(s, Next(s.loops[l], l)) && Settles(s, Do(s, Next(s.loops[l], l)), l, c)
    ensures Runs(s.loops[l]) && s.loops[l].q.batch[0].c == c ==>
      Weight(Do(s, Next(s.loops[l], l)).loops[l].q.Todo(), c) < Weight(s.loops[l].q.Todo(), c)
  {
    hide SysInv, CanDo, Do, Next, Gone, Added, Weight, Quiet, PhaseAfter, QueueAfter, Pushes, Runs;
    NextWeight(s, l, c);
    NextMoves(s, l, l);
    forall k | k in s.loops && k != l && l != BASE && Quiet(s.loops[k], c)
      ensures k in Do(s, Next(s.loops[l], l)).loops && Quiet(Do(s, Next(s.loops[l], l)).loops[k], c)
    {
      NextQuiet(s, l, k, c);
    }
  }

  /** A loop left to itself comes to run the `k`-th functor queued on it. */
  lemma {:induction false} Drive(s: Server, l: LoopId, k: nat, c: Id) returns (steps: seq<Step>, s': Server)
    requires SysInv(s) && l in s.loops && c in s.conns
    requires k < |s.loops[l].q.Todo()|
    ensures Leads(s, steps, s', c) && l in s'.loops
    ensures Runs(s'.loops[l]) && s'.loops[l].q.batch[0] == s.loops[l].q.Todo()[k]
    ensures Gone(s.conns[c]) ==> Settles(s, s', l, c)
    decreases k, Far(s.loops[l]), Work(s.loops[l].phase)
  {
    hide SysInv, CanDo, Do, Leads, Next, Added, Far, Work, Gone, Settles;
    var loop := s.loops[l];
    if Runs(loop) && k == 0 {
      NoSteps(s, c);
      SettlesNone(s, l, c);
      steps, s' := [], s;
    } else {
      NextIsLater(s, l, c);
      NextTodo(s, l, l);
      if !Runs(loop) { NextIsCloser(s, l); }
      var more: seq<Step>;
      more, s' := Drive(Do(s, Next(loop, l)), l, if Runs(loop) then k - 1 else k, c);
      StepThen(s, l, more, s', c);
      if Gone(s.conns[c]) {
        NextSettles(s, l, c);
        SettlesOn(s, Do(s, Next(loop, l)), s', l, c);
      }
      steps := [Next(loop, l)] + more;
    }
  }

  /** One step, as a run. */
  lemma OneStep(s: Server, l: LoopId, c: Id) returns (steps: seq<Step>, s': Server)
    requires SysInv(s) && l in s.loops && c in s.conns
    ensures steps == [Next(s.loops[l], l)] && CanDo(s, steps[0]) && s' == Do(s, steps[0]) && Leads(s, steps, s', c)
  {
    hide SysInv, CanDo, Do, Leads, Next;
    NextIsLater(s, l, c);
    steps, s' := [Next(s.loops[l], l)], Do(s, Next(s.loops[l], l));
    NoSteps(s', c);
    StepThen(s, l, [], s', c);
    assert steps + [] == steps;
  }

  /** A queued destruction is carried out. */
  lemma DestroyQueued(s: Server, c: Id, k: nat) returns (steps: seq<Step>, s': Server)
    requires SysInv(s) && c in s.conns && Present(s, c) && s.conns[c].state.Disconnected?
    requires k < |s.loops[s.home[c]].q.Todo()| && s.loops[s.home[c]].q.Todo()[k] == RunDestroyed(c)
    ensures Leads(s, steps, s', c) && Gone(s'.conns[c])
  {
    hide SysInv, Leads, CanDo, Do;
    var l := s.home[c];
    var xs, s1 := Drive(s, l, k, c);
    LeadsLater(s, xs, s1, c);
    var ys: seq<Step>;
    ys, s' := OneStep(s1, l, c);
    Chain(s, xs, s1, ys, s', c);
    steps := xs + ys;
    DestroysNow(s1, l, c);
  }

  lemma LeadsLater(s: Server, steps: seq<Step>, s': Server, c: Id)
    requires Leads(s, steps, s', c)
    ensures Later(s, s', c)
  {
  }

  lemma DestroysNow(s: Server, l: LoopId, c: Id)
    requires SysInv(s) && l in s.loops && Runs(s.loops[l]) && s.loops[l].q.batch[0] == RunDestroyed(c)
    requires c in s.conns && s.conns[c].state.Disconnected?
    ensures CanDo(s, Next(s.loops[l], l)) && c in Do(s, Next(s.loops[l], l)).conns
    ensures Gone(Do(s, Next(s.loops[l], l)).conns[c])
  {
    hide SysInv;
    NextCan(s, l);
    NextOp(s, l);
    ConnsAfter(s, RunFunctor(l));
  }

  /** A queued removal is carried out, and then the destruction it queues. */
  lemma RemoveQueued(s: Server, c: Id, k: nat) returns (steps: seq<Step>, s': Server)
    requires SysInv(s) && c in s.conns && s.conns[c].state.Disconnected?
    requires BASE in s.loops && k < |s.loops[BASE].q.Todo()| && s.loops[BASE].q.Todo()[k] == RunRemove(c)
    ensures Leads(s, steps, s', c) && Gone(s'.conns[c])
  {
    hide SysInv, Leads, CanDo, Do, Next, Gone;
    var xs, s1 := Drive(s, BASE, k, c);
    LeadsLater(s, xs, s1, c);
    ConnsThere(s1, c);
    var ys, s2 := OneStep(s1, BASE, c);
    LeadsLater(s1, ys, s2, c);
    ConnsThere(s2, c);
    NextTodo(s1, BASE, s1.home[c]);
    assert Added(s1, BASE, s1.home[c]) == [RunDestroyed(c)];
    var zs: seq<Step>;
    zs, s' := DestroyQueued(s2, c, |s2.loops[s2.home[c]].q.Todo()| - 1);
    Chain(s, xs, s1, ys, s2, c);
    Chain(s, xs + ys, s2, zs, s', c);
    steps := xs + ys + zs;
  }

  /** So is a close callback. */
  lemma CallbackDue(s: Server, c: Id) returns (steps: seq<Step>, s': Server)
    requires SysInv(s) && c in s.conns && Present(s, c) && AtCallback(s.loops[s.home[c]].phase, c)
    requires s.conns[c].state.Disconnected?
    ensures Leads(s, steps, s', c) && Gone(s'.conns[c])
  {
    hide SysInv, Leads, CanDo, Do, Next, Gone;
    BaseIsThere(s);
    var l := s.home[c];
    var h := if l == BASE then l else BASE;
    var xs, s1 := OneStep(s, l, c);
    LeadsLater(s, xs, s1, c);
    ConnsThere(s1, c);
    NextTodo(s, l, h);
    var last := |s1.loops[h].q.Todo()| - 1;
    var ys: seq<Step>;
    if l == BASE {
      assert Added(s, l, h) == [RunDestroyed(c)];
      ys, s' := DestroyQueued(s1, c, last);
    } else {
      assert Added(s, l, h) == [RunRemove(c)];
      ys, s' := RemoveQueued(s1, c, last);
    }
    Chain(s, xs, s1, ys, s', c);
    steps := xs + ys;
  }

  lemma PlaceOf(q: Queue<Functor>, f: Functor) returns (k: nat)
    requires Count(q, f) > 0
    ensures k < |q.Todo()| && q.Todo()[k] == f
  {
    if f in q.batch {
      k :| 0 <= k < |q.batch| && q.batch[k] == f;
    } else {
      var i :| 0 <= i < |q.pending| && q.pending[i] == f;
      k := |q.batch| + i;
    }
  }

  /** Wherever a closed connection is on its way, its loops left to themselves destroy it. */
  lemma EndIsReached(s: Server, c: Id) returns (steps: seq<Step>, s': Server)
    requires SysInv(s) && NoneForgotten(s) && c in s.conns && s.conns[c].state.Disconnected?
    ensures Leads(s, steps, s', c) && Gone(s'.conns[c])
  {
    hide SysInv, Leads, CanDo, Do, Next, Count, AtCallback;
    ConnsThere(s, c);
    var q := s.loops[s.home[c]].q;
    if Gone(s.conns[c]) {
      NoSteps(s, c);
      steps, s' := [], s;
    } else if Count(q, RunDestroyed(c)) > 0 {
      var k := PlaceOf(q, RunDestroyed(c));
      steps, s' := DestroyQueued(s, c, k);
    } else if Count(s.loops[BASE].q, RunRemove(c)) > 0 {
      var k := PlaceOf(s.loops[BASE].q, RunRemove(c));
      steps, s' := RemoveQueued(s, c, k);
    } else {
      steps, s' := CallbackDue(s, c);
    }
  }

  // Nothing refers to a destroyed connection any more

  /** A loop left to itself runs everything it has queued about a destroyed connection. */
  lemma {:induction false} Drain(s: Server, l: LoopId, c: Id) returns (steps: seq<Step>, s': Server)
    requires SysInv(s) && l in s.loops && c in s.conns && Gone(s.conns[c])
    ensures Leads(s, steps, s', c) && Settles(s, s', l, c) && Weight(s'.loops[l].q.Todo(), c) == 0
    decreases Weight(s.loops[l].q.Todo(), c)
  {
    hide SysInv, CanDo, Do, Leads, Next, Settles, Weight;
    var todo := s.loops[l].q.Todo();
    WeightNone(todo, c);
    if Weight(todo, c) == 0 {
      NoSteps(s, c);
      SettlesNone(s, l, c);
      steps, s' := [], s;
    } else {
      var k :| 0 <= k < |todo| && todo[k].c == c;
      var xs, s1 := Drive(s, l, k, c);
      LeadsLater(s, xs, s1, c);
      var ys, s2 := OneStep(s1, l, c);
      LeadsLater(s1, ys, s2, c);
      NextSettles(s1, l, c);
      SettlesOn(s, s1, s2, l, c);
      SettlesLess(s, s1, l, c);
      var zs: seq<Step>;
      zs, s' := Drain(s2, l, c);
      SettlesOn(s, s2, s', l, c);
      Chain(s, xs, s1, ys, s2, c);
      Chain(s, xs + ys, s2, zs, s', c);
      steps := xs + ys + zs;
    }
  }

  lemma SettlesLess(s: Server, s': Server, l: LoopId, c: Id)
    requires l in s.loops && Settles(s, s', l, c)
    ensures l in s'.loops && Weight(s'.loops[l].q.Todo(), c) <= Weight(s.loops[l].q.Todo(), c)
  {
  }

  /** How far a loop is from poll. */
  function Laps(loop: Loop): nat { if loop.phase.InPoll? then 0 else if loop.phase.Running? then 1 else 2 }

  function Left(loop: Loop): nat { if loop.phase.Running? then |loop.q.batch| else Work(loop.phase) }

  lemma NextIsNearer(s: Server, l: LoopId)
    requires SysInv(s) && l in s.loops && !s.loops[l].phase.InPoll?
    ensures CanDo(s, Next(s.loops[l], l)) && l in Do(s, Next(s.loops[l], l)).loops
    ensures var (loop, loop') := (s.loops[l], Do(s, Next(s.loops[l], l)).loops[l]);
      Laps(loop') < Laps(loop) || (Laps(loop') == Laps(loop) && Left(loop') < Left(loop))
  {
    hide SysInv, CanDo, Do, Pushes, Next;
    NextMoves(s, l, l);
    LoopsGood(s, l);
  }

  /** And comes back to poll without anything about it. */
  lemma {:induction false} Quieten(s: Server, l: LoopId, c: Id) returns (steps: seq<Step>, s': Server)
    requires SysInv(s) && l in s.loops && c in s.conns && Gone(s.conns[c]) && Weight(s.loops[l].q.Todo(), c) == 0
    ensures Leads(s, steps, s', c) && Settles(s, s', l, c) && Quiet(s'.loops[l], c)
    decreases Laps(s.loops[l]), Left(s.loops[l])
  {
    hide SysInv, CanDo, Do, Leads, Next, Settles, Weight, Laps, Left, Quiet;
    if s.loops[l].phase.InPoll? {
      NoSteps(s, c);
      SettlesNone(s, l, c);
      QuietInPoll(s, l, c);
      steps, s' := [], s;
    } else {
      var xs, s1 := OneStep(s, l, c);
      LeadsLater(s, xs, s1, c);
      NextSettles(s, l, c);
      SettlesLess(s, s1, l, c);
      NextIsNearer(s, l);
      var ys: seq<Step>;
      ys, s' := Quieten(s1, l, c);
      SettlesOn(s, s1, s', l, c);
      Chain(s, xs, s1, ys, s', c);
      steps := xs + ys;
    }
  }

  lemma QuietInPoll(s: Server, l: LoopId, c: Id)
    requires SysInv(s) && l in s.loops && s.loops[l].phase.InPoll? && Weight(s.loops[l].q.Todo(), c) == 0
    ensures Quiet(s.loops[l], c)
  {
    hide SysInv, Weight, GoodQueue;
    LoopsGood(s, l);
    WeightNone(s.loops[l].q.Todo(), c);
  }

  lemma Silence(s: Server, l: LoopId, c: Id) returns (steps: seq<Step>, s': Server)
    requires SysInv(s) && l in s.loops && c in s.conns && Gone(s.conns[c])
    ensures Leads(s, steps, s', c) && Settles(s, s', l, c) && Quiet(s'.loops[l], c)
  {
    hide SysInv, Leads, Settles, Weight, Quiet;
    var xs, s1 := Drain(s, l, c);
    LeadsLater(s, xs, s1, c);
    var ys: seq<Step>;
    ys, s' := Quieten(s1, l, c);
    SettlesOn(s, s1, s', l, c);
    Chain(s, xs, s1, ys, s', c);
    steps := xs + ys;
  }

  /** All loops but those of `noisy` are quiet about `c`. */
  predicate AllQuiet(s: Server, noisy: set<LoopId>, c: Id) {
    forall l | l in s.loops && l !in noisy :: Quiet(s.loops[l], c)
  }

  lemma {:induction false} SilenceAll(s: Server, noisy: set<LoopId>, c: Id) returns (steps: seq<Step>, s': Server)
    requires SysInv(s) && c in s.conns && Gone(s.conns[c]) && BASE !in noisy && noisy <= s.loops.Keys
    requires AllQuiet(s, noisy, c)
    ensures Leads(s, steps, s', c) && AllQuiet(s', {}, c)
    decreases |noisy|
  {
    hide SysInv, Leads, Quiet;
    if l :| l in noisy {
      var xs, s1 := Silence(s, l, c);
      LeadsLater(s, xs, s1, c);
      var ys: seq<Step>;
      ys, s' := SilenceAll(s1, noisy - {l}, c);
      Chain(s, xs, s1, ys, s', c);
      steps := xs + ys;
    } else {
      NoSteps(s, c);
      steps, s' := [], s;
    }
  }

  function Released(s: Server, c: Id): Server { s.(held := s.held - {c}) }

  /** Once destroyed and unmentioned, a connection is referenced by its user only. */
  lemma OnlyHeld(s: Server, c: Id)
    requires SysInv(s) && c in s.conns && Gone(s.conns[c]) && AllQuiet(s, {}, c)
    ensures !Referenced(Released(s, c), c)
  {
    hide SysInv, Settled, Agrees, Name;
    ConnsGood(s, c);
    if c in s.names.Values {
      var n :| n in s.names && s.names[n] == c;
      NamesGood(s, n);
    }
  }

  lemma NamesGood(s: Server, n: string)
    requires SysInv(s) && n in s.names
    ensures GoodName(s.prefix, s.names, s.conns.Keys, n)
  {
  }

  /** All loops left to themselves, the base loop first, come to hold nothing of a destroyed connection. */
  lemma LetGo(s: Server, c: Id) returns (steps: seq<Step>, s': Server)
    requires SysInv(s) && c in s.conns && Gone(s.conns[c])
    ensures Leads(s, steps, s', c) && !Referenced(Released(s', c), c)
  {
    hide SysInv, Leads, Quiet, Referenced, Gone;
    BaseIsThere(s);
    var xs, s1 := Silence(s, BASE, c);
    LeadsLater(s, xs, s1, c);
    var ys: seq<Step>;
    ys, s' := SilenceAll(s1, s1.loops.Keys - {BASE}, c);
    LeadsLater(s1, ys, s', c);
    OnlyHeld(s', c);
    Chain(s, xs, s1, ys, s', c);
    steps := xs + ys;
  }

  /** In every run, once a connection is closed its loops left to themselves destroy it: DOWN has been told and
      its channel is removed. */
  lemma EveryClosedIsDestroyed(s0: Server, steps: seq<Step>, c: Id) returns (more: seq<Step>)
    requires Initial(s0) && RunAll(s0, steps).Some?
    requires c in RunAll(s0, steps).value.conns && RunAll(s0, steps).value.conns[c].state.Disconnected?
    ensures forall i | 0 <= i < |more| :: Undisturbed(more[i])
    ensures RunAll(s0, steps + more).Some?
    ensures c in RunAll(s0, steps + more).value.conns && Gone(RunAll(s0, steps + more).value.conns[c])
  {
    hide SysInv, RunAll, Initial, NoneForgotten, Gone;
    EveryRunKeeps(s0, steps);
    NoneIsForgotten(s0, steps);
    var s';
    more, s' := EndIsReached(RunAll(s0, steps).value, c);
    RunAllAppend(s0, steps, more);
  }

  /** What is left to do for the connection to be freed. */
  function Leave(held: bool, c: Id): seq<Step> { if held then [Release(c), Free(c)] else [Free(c)] }

  lemma LeaveFrees(s: Server, c: Id)
    requires c in s.conns && !Referenced(Released(s, c), c)
    ensures var leave := Leave(c in s.held, c); RunAll(s, leave).Some? && c !in RunAll(s, leave).value.conns
  {
    hide Referenced, RunAll;
    if c in s.held {
      var release, free: seq<Step> := [Release(c)], [Free(c)];
      ReleaseRuns(s, c);
      FreeRuns(Released(s, c), c);
      RunAllAppend(s, release, free);
      assert release + free == Leave(true, c);
    } else {
      assert Released(s, c) == s;
      FreeRuns(s, c);
    }
  }

  lemma ReleaseRuns(s: Server, c: Id)
    requires c in s.held
    ensures RunAll(s, [Release(c)]) == Some(Released(s, c))
  {
    RunSingle(s, Release(c));
  }

  lemma FreeRuns(s: Server, c: Id)
    requires c in s.conns && !Referenced(s, c)
    ensures RunAll(s, [Free(c)]) == Some(Freed(s, c))
  {
    hide Referenced;
    RunSingle(s, Free(c));
  }

  lemma RunSingle(s: Server, step: Step)
    requires CanDo(s, step)
    ensures RunAll(s, [step]) == Some(Do(s, step))
  {
    hide CanDo, Do;
    assert [step][..0] == [];
  }

  /** And in every run a closed connection comes to be freed when its loops are left to themselves and its user gives
      up the pointer it may hold. */
  lemma EveryClosedIsFreed(s0: Server, steps: seq<Step>, c: Id) returns (more: seq<Step>)
    requires Initial(s0) && RunAll(s0, steps).Some?
    requires c in RunAll(s0, steps).value.conns && RunAll(s0, steps).value.conns[c].state.Disconnected?
    ensures forall i | 0 <= i < |more| :: Undisturbed(more[i])
    ensures var all := steps + more + Leave(c in RunAll(s0, steps).value.held, c);
      RunAll(s0, all).Some? && c !in RunAll(s0, all).value.conns
  {
    hide SysInv, RunAll, Initial, NoneForgotten, Gone, Referenced, Undisturbed;
    EveryRunKeeps(s0, steps);
    NoneIsForgotten(s0, steps);
    var s := RunAll(s0, steps).value;
    var xs, s1 := EndIsReached(s, c);
    var ys, s2 := LetGo(s1, c);
    more := xs + ys;
    Chain(s, xs, s1, ys, s2, c);
    RunAllAppend(s0, steps, more);
    LeaveFrees(s2, c);
    RunAllAppend(s0, steps + more, Leave(c in s.held, c));
  }

  // New connections

  /** A connection that waits for its establishing functor comes to be established by its loop left to itself. */
  lemma EstablishQueued(s: Server, c: Id) returns (steps: seq<Step>, s': Server)
    requires SysInv(s) && c in s.conns && s.conns[c].state.Connecting?
    ensures Leads(s, steps, s', c) && s'.conns[c].state.Connected? && Up in s'.conns[c].trace
  {
    hide SysInv, Leads, CanDo, Do, Count, Gone;
    var k := EstablishPlace(s, c);
    var l := s.home[c];
    var xs, s1 := Drive(s, l, k, c);
    LeadsLater(s, xs, s1, c);
    var ys: seq<Step>;
    ys, s' := OneStep(s1, l, c);
    Chain(s, xs, s1, ys, s', c);
    steps := xs + ys;
    EstablishesNow(s1, l, c);
  }

  lemma EstablishPlace(s: Server, c: Id) returns (k: nat)
    requires SysInv(s) && c in s.conns && s.conns[c].state.Connecting?
    ensures Present(s, c) && k < |s.loops[s.home[c]].q.Todo()| && s.loops[s.home[c]].q.Todo()[k] == RunEstablished(c)
  {
    hide SysInv, Agrees, Listing, Watched, Count;
    ConnsThere(s, c);
    RoutedOf(s, s.home[c], c);
    k := PlaceOf(s.loops[s.home[c]].q, RunEstablished(c));
  }

  lemma EstablishesNow(s: Server, l: LoopId, c: Id)
    requires SysInv(s) && l in s.loops && Runs(s.loops[l]) && s.loops[l].q.batch[0] == RunEstablished(c)
    requires c in s.conns
    ensures CanDo(s, Next(s.loops[l], l)) && c in Do(s, Next(s.loops[l], l)).conns
    ensures var conn := Do(s, Next(s.loops[l], l)).conns[c]; conn.state.Connected? && Up in conn.trace
  {
    hide SysInv;
    NextCan(s, l);
    NextOp(s, l);
    ConnsAfter(s, RunFunctor(l));
  }

  /** After every run a connection that has been accepted, and is not established yet, comes to be. */
  lemma EveryAcceptedIsEstablished(s0: Server, steps: seq<Step>, c: Id) returns (more: seq<Step>)
    requires Initial(s0) && RunAll(s0, steps).Some?
    requires c in RunAll(s0, steps).value.conns && RunAll(s0, steps).value.conns[c].state.Connecting?
    ensures forall i | 0 <= i < |more| :: Undisturbed(more[i])
    ensures RunAll(s0, steps + more).Some? && c in RunAll(s0, steps + more).value.conns
    ensures var conn := RunAll(s0, steps + more).value.conns[c]; conn.state.Connected? && Up in conn.trace
  {
    hide SysInv, RunAll, Initial, Gone;
    EveryRunKeeps(s0, steps);
    var s';
    more, s' := EstablishQueued(RunAll(s0, steps).value, c);
    RunAllAppend(s0, steps, more);
  }
}
