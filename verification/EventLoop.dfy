/** The functor queue of an event loop (src/net/EventLoop.cpp): a batch swapped out under the
    lock, and an eventfd that wakes the poller. */
module FunctorQueues {

  /** `pending` is what the mutex guards; `batch` is what is left to run of the vector swapped out
      last, and `ran` the functors of that vector already run, which it keeps alive. */
  datatype Queue<F> = Queue(pending: seq<F>, batch: seq<F>, ran: seq<F>) {
    /** Everything queued and not yet run, in the order it will run. */
    function Todo(): seq<F> { batch + pending }

    function Push(f: F): Queue<F> { this.(pending := pending + [f]) }

    function Swap(): Queue<F>
      requires batch == [] && ran == []
    {
      Queue([], pending, [])
    }

    function RunNext(): Queue<F>
      requires batch != []
    {
      this.(batch := batch[1..], ran := ran + [batch[0]])
    }

    /** The end of the batch: the vector and the functors in it are destroyed. */
    function Finish(): Queue<F> { this.(ran := []) }
  }

  function EmptyQueue<F>(): Queue<F> { Queue([], [], []) }
}

module EventLoopSpec {
  import opened Text
  import opened FunctorQueues

  /** Where the loop thread is: not yet in `loop()`, waiting in poll, dispatching active channels, between setting
      `_callingPendingFunctors` and the swap, or running the batch. */
  datatype Pc = Before | Polling | Dispatching | Swapping | Running

  type Thread = int

  /** The largest value of an eventfd counter; a write that would pass it fails. */
  const COUNTER_MAX: nat := 0xFFFF_FFFF_FFFF_FFFE

  /** `waking` are the other threads between their push and their wakeup; `selfWaking` says the
      same of the loop thread.  `woken`: the wakeup channel is active and not yet handled. */
  datatype Loop<F> = Loop(pc: Pc, q: Queue<F>, calling: bool, counter: nat, woken: bool,
                          waking: set<Thread>, selfWaking: bool,
                          enqueued: seq<F>, executed: seq<F>)

  datatype Step<F> =
    | QueueBefore(f: F)
    | EnterLoop
    | PollReturns(wakeupActive: bool)
    | ReadWakeup
    | QueueInHandler(f: F)
    | PushFrom(thread: Thread, f: F)
    | WakeFrom(thread: Thread)
    | BeginFunctors
    | SwapFunctors
    | RunFunctor
    | QueueInFunctor(f: F)
    | WakeSelf
    | EndFunctors

  function Bump(counter: nat): nat { if counter < COUNTER_MAX then counter + 1 else counter }

  /** When a step can happen.  Poll may return for any reason, but reports the wakeup channel only
      if the counter is positive. */
  predicate Enabled<F>(s: Loop<F>, step: Step<F>) {
    match step
    case QueueBefore(_) => s.pc.Before?
    case EnterLoop => s.pc.Before?
    case PollReturns(active) => s.pc.Polling? && (active ==> s.counter > 0)
    case ReadWakeup => s.pc.Dispatching? && s.woken
    case QueueInHandler(_) => s.pc.Dispatching?
    case PushFrom(t, _) => t !in s.waking
    case WakeFrom(t) => t in s.waking
    case BeginFunctors => s.pc.Dispatching? && !s.woken
    case SwapFunctors => s.pc.Swapping?
    case RunFunctor => s.pc.Running? && s.q.batch != [] && !s.selfWaking
    case QueueInFunctor(_) => s.pc.Running? && !s.selfWaking
    case WakeSelf => s.selfWaking
    case EndFunctors => s.pc.Running? && s.q.batch == [] && !s.selfWaking
  }

  /** The loop thread wakes itself after a push only while `calling` is set. */
  function Apply<F>(s: Loop<F>, step: Step<F>): Loop<F>
    requires Enabled(s, step)
    requires s.pc.Swapping? ==> s.q.batch == [] && s.q.ran == []
  {
    match step
    case QueueBefore(f) => s.(q := s.q.Push(f), selfWaking := s.calling, enqueued := s.enqueued + [f])
    case EnterLoop => s.(pc := Polling)
    case PollReturns(active) => s.(pc := Dispatching, woken := active)
    case ReadWakeup => s.(counter := 0, woken := false)
    case QueueInHandler(f) => s.(q := s.q.Push(f), selfWaking := s.calling, enqueued := s.enqueued + [f])
    case PushFrom(t, f) => s.(q := s.q.Push(f), waking := s.waking + {t}, enqueued := s.enqueued + [f])
    case WakeFrom(t) => s.(counter := Bump(s.counter), waking := s.waking - {t})
    case BeginFunctors => s.(pc := Swapping, calling := true)
    case SwapFunctors => s.(pc := Running, q := s.q.Swap())
    case RunFunctor => s.(q := s.q.RunNext(), executed := s.executed + [s.q.batch[0]])
    case QueueInFunctor(f) => s.(q := s.q.Push(f), selfWaking := s.calling, enqueued := s.enqueued + [f])
    case WakeSelf => s.(counter := Bump(s.counter), selfWaking := false)
    case EndFunctors => s.(pc := Polling, calling := false, q := s.q.Finish())
  }

  /** A new loop: nothing queued, and its thread not yet in `loop()`. */
  function Fresh<F>(): Loop<F> { Loop(Before, EmptyQueue(), false, 0, false, {}, false, [], []) }

  /** No lost wakeup: when functors are pending and the loop waits in poll, or will next, the
      counter is positive or someone is about to make it so. */
  ghost predicate NoLostWakeup<F>(s: Loop<F>) {
    s.q.pending != [] && (s.pc.Polling? || s.pc.Running?) ==> s.counter > 0 || s.waking != {} || s.selfWaking
  }

  /** Functors run in exactly the order they were queued, none lost, none twice. */
  ghost predicate Fifo<F>(s: Loop<F>) {
    s.enqueued == s.executed + s.q.Todo()
  }

  ghost predicate Shape<F>(s: Loop<F>) {
    && (s.calling <==> s.pc.Swapping? || s.pc.Running?)
    && (s.woken ==> s.pc.Dispatching?)
    && (s.selfWaking ==> s.pc.Running?)
    && (!s.pc.Running? ==> s.q.batch == [] && s.q.ran == [])
  }

  function RunSteps<F>(s: Loop<F>, steps: seq<Step<F>>): Option<Loop<F>> {
    if steps == [] then Some(s)
    else
      match RunSteps(s, steps[..|steps| - 1])
      case None => None
      case Some(s1) =>
        var step := steps[|steps| - 1];
        if Enabled(s1, step) && (s1.pc.Swapping? ==> s1.q.batch == [] && s1.q.ran == [])
        then Some(Apply(s1, step)) else None
  }

  /** The loop is entered with functors queued and nobody to wake it. */
  predicate EntersUnwoken<F>(s: Loop<F>, step: Step<F>) {
    step.EnterLoop? && s.q.pending != [] && s.counter == 0 && s.waking == {}
  }

  lemma StepKeeps<F>(s: Loop<F>, step: Step<F>)
    requires Shape(s) && Fifo(s) && Enabled(s, step)
    ensures Shape(Apply(s, step)) && Fifo(Apply(s, step))
    ensures NoLostWakeup(s) ==> (NoLostWakeup(Apply(s, step)) <==> !EntersUnwoken(s, step))
  {
    FifoKeeps(s, step);
    hide Fifo;
  }

  lemma FifoKeeps<F>(s: Loop<F>, step: Step<F>)
    requires Shape(s) && Fifo(s) && Enabled(s, step)
    ensures Fifo(Apply(s, step))
  {
    match step
    case QueueBefore(f) => PushTodo(s, f);
    case QueueInHandler(f) => PushTodo(s, f);
    case PushFrom(_, f) => PushTodo(s, f);
    case QueueInFunctor(f) => PushTodo(s, f);
    case SwapFunctors => assert s.q.Todo() == s.q.Swap().Todo();
    case RunFunctor =>
      var q := s.q;
      assert q.batch == [q.batch[0]] + q.batch[1..];
      Regroup([q.batch[0]], q.batch[1..], q.pending);
      Regroup(s.executed, [q.batch[0]], q.RunNext().Todo());
    case _ =>
  }

  lemma PushTodo<F>(s: Loop<F>, f: F)
    requires Fifo(s)
    ensures s.enqueued + [f] == s.executed + s.q.Push(f).Todo()
  {
    Regroup(s.q.batch, s.q.pending, [f]);
    Regroup(s.executed, s.q.Todo(), [f]);
  }

  lemma {:induction false} RunKeeps<F>(s: Loop<F>, steps: seq<Step<F>>)
    requires Shape(s) && Fifo(s) && RunSteps(s, steps).Some?
    ensures var s' := RunSteps(s, steps).value; Shape(s') && Fifo(s')
    decreases |steps|
  {
    if steps == [] {
    } else {
      RunKeeps(s, steps[..|steps| - 1]);
      StepKeeps(RunSteps(s, steps[..|steps| - 1]).value, steps[|steps| - 1]);
    }
  }

  /** Over every interleaving of the loop thread with any number of other threads the queue is
      first in, first out. */
  lemma EveryRunFifo<F>(steps: seq<Step<F>>)
    requires RunSteps(Fresh(), steps).Some?
    ensures Fifo(RunSteps(Fresh(), steps).value)
  {
    RunKeeps(Fresh(), steps);
  }

  predicate HasOwn<F>(steps: seq<Step<F>>) { exists i | 0 <= i < |steps| :: steps[i].QueueBefore? }

  predicate HasOther<F>(steps: seq<Step<F>>) { exists i | 0 <= i < |steps| :: steps[i].PushFrom? }

  lemma HasSnoc<F>(steps: seq<Step<F>>)
    requires steps != []
    ensures var (before, last) := (steps[..|steps| - 1], steps[|steps| - 1]);
      && (HasOwn(steps) <==> HasOwn(before) || last.QueueBefore?)
      && (HasOther(steps) <==> HasOther(before) || last.PushFrom?)
  {
    var n := |steps| - 1;
    assert forall i | 0 <= i < n :: steps[..n][i] == steps[i];
    if i :| 0 <= i < n && steps[..n][i].QueueBefore? { assert steps[i].QueueBefore?; }
    if i :| 0 <= i < n && steps[..n][i].PushFrom? { assert steps[i].PushFrom?; }
    if i :| 0 <= i < |steps| && steps[i].QueueBefore? { assert i < n ==> steps[..n][i].QueueBefore?; }
    if i :| 0 <= i < |steps| && steps[i].PushFrom? { assert i < n ==> steps[..n][i].PushFrom?; }
  }

  /** Before `loop()`, what is queued and who will wake the loop can be told from the history. */
  lemma {:induction false} BeforeHistory<F>(steps: seq<Step<F>>)
    requires RunSteps(Fresh(), steps).Some? && RunSteps(Fresh(), steps).value.pc.Before?
    ensures var s := RunSteps(Fresh(), steps).value;
      && (s.q.pending != [] <==> HasOwn(steps) || HasOther(steps))
      && (s.counter > 0 || s.waking != {} <==> HasOther(steps))
  {
    if steps == [] {
    } else {
      var n := |steps| - 1;
      BeforeHistory(steps[..n]);
      HasSnoc(steps);
      RunKeeps(Fresh(), steps[..n]);
      var s := RunSteps(Fresh(), steps[..n]).value;
      if steps[n].WakeFrom? { assert steps[n].thread in s.waking; }
    }
  }

  /** In no state of the run is a wakeup lost. */
  ghost predicate AlwaysWoken<F>(steps: seq<Step<F>>)
    requires RunSteps(Fresh(), steps).Some?
  {
    NoLostWakeup(RunSteps(Fresh(), steps).value) && (steps == [] || AlwaysWoken(steps[..|steps| - 1]))
  }

  /** The loop is entered after its own thread, and no other, has queued functors. */
  predicate EntersAfterOwnOnly<F>(steps: seq<Step<F>>) {
    steps != [] &&
    var n := |steps| - 1;
    EntersAfterOwnOnly(steps[..n]) || (steps[n].EnterLoop? && HasOwn(steps[..n]) && !HasOther(steps[..n]))
  }

  /** A run loses a wakeup exactly when its loop is entered after the loop's own thread has queued functors
      and no other thread has. */
  lemma {:induction false} NoLostWakeupExactly<F>(steps: seq<Step<F>>)
    requires RunSteps(Fresh(), steps).Some?
    ensures AlwaysWoken(steps) <==> !EntersAfterOwnOnly(steps)
  {
    if steps == [] {
    } else {
      var n := |steps| - 1;
      var s := RunSteps(Fresh(), steps[..n]).value;
      hide Apply;
      NoLostWakeupExactly(steps[..n]);
      RunKeeps(Fresh(), steps[..n]);
      StepKeeps(s, steps[n]);
      if steps[n].EnterLoop? { BeforeHistory(steps[..n]); }
    }
  }

  /** Its smallest instance: one functor queued by the loop's own thread, and `loop()` entered. */
  lemma UnwokenExample<F>(f: F)
    ensures var steps := [QueueBefore(f), EnterLoop]; RunSteps(Fresh(), steps).Some? && !AlwaysWoken(steps)
  {
    var queue: seq<Step<F>>, steps := [QueueBefore(f)], [QueueBefore(f), EnterLoop];
    assert steps == queue + [EnterLoop] && steps[..1] == queue;
    RunOne(Fresh(), QueueBefore(f));
    RunThen(Fresh(), queue, EnterLoop);
    assert queue[0].QueueBefore?;
    NoLostWakeupExactly(steps);
  }

  // One iteration of the loop on its own

  function Repeat<F>(n: nat): seq<Step<F>> { seq(n, _ => RunFunctor) }

  function Iteration<F>(s: Loop<F>): seq<Step<F>> {
    (if s.counter > 0 then [PollReturns(true), ReadWakeup] else [PollReturns(false)])
    + [BeginFunctors, SwapFunctors] + Repeat(|s.q.pending|) + [EndFunctors]
  }

  lemma {:induction false} RunStepsAppend<F>(s: Loop<F>, xs: seq<Step<F>>, ys: seq<Step<F>>)
    ensures RunSteps(s, xs + ys)
         == match RunSteps(s, xs) case None => None case Some(s1) => RunSteps(s1, ys)
    decreases |ys|
  {
    if ys == [] {
      assert xs + ys == xs;
    } else {
      assert (xs + ys)[..|xs + ys| - 1] == xs + ys[..|ys| - 1];
      RunStepsAppend(s, xs, ys[..|ys| - 1]);
    }
  }

  lemma RunOne<F>(s: Loop<F>, step: Step<F>)
    requires Shape(s) && Enabled(s, step)
    ensures RunSteps(s, [step]) == Some(Apply(s, step))
  {
    assert [step][..0] == [];
    assert RunSteps(s, []) == Some(s);
  }

  lemma {:induction false} BatchRuns<F>(s: Loop<F>, n: nat)
    requires Shape(s) && s.pc.Running? && !s.selfWaking && n <= |s.q.batch|
    ensures RunSteps(s, Repeat(n))
         == Some(s.(q := s.q.(batch := s.q.batch[n..], ran := s.q.ran + s.q.batch[..n]),
                    executed := s.executed + s.q.batch[..n]))
    decreases n
  {
    if n == 0 {
      assert Repeat<F>(0) == [];
      assert s.q.batch[..0] == [] && s.q.batch[0..] == s.q.batch;
      assert s.executed + [] == s.executed && s.q.ran + [] == s.q.ran;
    } else {
      BatchRuns(s, n - 1);
      var more := Repeat<F>(n);
      assert more[..n - 1] == Repeat(n - 1) && more[|more| - 1] == RunFunctor;
      assert s.q.batch[..n] == s.q.batch[..n - 1] + [s.q.batch[n - 1]];
      assert s.q.batch[n - 1..][1..] == s.q.batch[n..];
      assert s.executed + s.q.batch[..n] == s.executed + s.q.batch[..n - 1] + [s.q.batch[n - 1]];
      assert s.q.ran + s.q.batch[..n] == s.q.ran + s.q.batch[..n - 1] + [s.q.batch[n - 1]];
    }
  }

  /** Polling and, if it is due, reading the eventfd. */
  lemma PollPart<F>(s: Loop<F>) returns (steps: seq<Step<F>>, s': Loop<F>)
    requires Shape(s) && s.pc.Polling?
    ensures steps == if s.counter > 0 then [PollReturns(true), ReadWakeup] else [PollReturns(false)]
    ensures RunSteps(s, steps) == Some(s') && Shape(s')
    ensures s' == s.(pc := Dispatching, woken := false, counter := 0)
  {
    hide RunSteps;
    var active := s.counter > 0;
    var s1 := Apply(s, PollReturns(active));
    RunOne(s, PollReturns(active));
    if active {
      RunOne(s1, ReadWakeup);
      steps, s' := [PollReturns(true)] + [ReadWakeup], Apply(s1, ReadWakeup);
      RunStepsAppend(s, [PollReturns(true)], [ReadWakeup]);
    } else {
      steps, s' := [PollReturns(false)], s1;
    }
  }

  /** An iteration that meets no further pushes runs everything that was pending, in order, and
      returns to poll with nothing left to do, and nothing to wake it. */
  lemma IterationDrains<F>(s: Loop<F>)
    requires Shape(s) && Fifo(s) && s.pc.Polling?
    ensures RunSteps(s, Iteration(s)).Some?
    ensures var s' := RunSteps(s, Iteration(s)).value;
      s'.pc.Polling? && s'.q == EmptyQueue() && s'.executed == s.enqueued && s'.counter == 0
  {
    hide RunSteps, Apply, Enabled;
    var start, s1 := PollPart(s);
    var rest, s2 := FunctorPart(s1);
    RunStepsAppend(s, start, rest);
    assert Iteration(s) == start + rest;
    assert s.q.Todo() == s.q.pending;
  }

  /** Swapping the functors out and running them. */
  lemma FunctorPart<F>(s: Loop<F>) returns (steps: seq<Step<F>>, s': Loop<F>)
    requires Shape(s) && s.pc.Dispatching? && !s.woken
    ensures steps == [BeginFunctors, SwapFunctors] + Repeat(|s.q.pending|) + [EndFunctors]
    ensures RunSteps(s, steps) == Some(s')
    ensures s'.pc.Polling? && s'.q == EmptyQueue() && s'.executed == s.executed + s.q.pending
    ensures s'.counter == s.counter
  {
    hide RunSteps;
    var n, begin: seq<Step<F>> := |s.q.pending|, [BeginFunctors];
    var s1 := Apply(s, BeginFunctors);
    var s2 := Apply(s1, SwapFunctors);
    RunOne(s, BeginFunctors);
    RunThen(s, begin, SwapFunctors);
    assert begin + [SwapFunctors] == [BeginFunctors, SwapFunctors];
    BatchRuns(s2, n);
    assert s2.q.batch[..n] == s2.q.batch && s2.q.batch[n..] == [];
    RunStepsAppend(s, [BeginFunctors, SwapFunctors], Repeat(n));
    steps := [BeginFunctors, SwapFunctors] + Repeat(n);
    RunThen(s, steps, EndFunctors);
    s' := Apply(RunSteps(s, steps).value, EndFunctors);
    steps := steps + [EndFunctors];
  }

  // Runs by the loop thread in which other threads only queue functors

  /** A functor given to `queueInLoop` by the loop thread (`None`) or by another. */
  datatype Arrival<F> = Arrival(f: F, caller: Option<Thread>)

  function QueueSteps<F>(pc: Pc, a: Arrival<F>): seq<Step<F>> {
    match a.caller
    case Some(t) => [PushFrom(t, a.f), WakeFrom(t)]
    case None =>
      if pc.Before? then [QueueBefore(a.f)]
      else if pc.Running? then [QueueInFunctor(a.f), WakeSelf]
      else [QueueInHandler(a.f)]
  }

  function ArrivalSteps<F>(pc: Pc, arrivals: seq<Arrival<F>>): seq<Step<F>> {
    if arrivals == [] then []
    else ArrivalSteps(pc, arrivals[..|arrivals| - 1]) + QueueSteps(pc, arrivals[|arrivals| - 1])
  }

  /** The functors of a batch run; `during[i]` arrives while the i-th does. */
  function FunctorSteps<F>(during: seq<seq<Arrival<F>>>): seq<Step<F>> {
    if during == [] then []
    else FunctorSteps(during[..|during| - 1]) + [RunFunctor] + ArrivalSteps(Running, during[|during| - 1])
  }

  /** `doPendingFunctors`; `early` arrives before the swap. */
  function BatchSteps<F>(early: seq<Arrival<F>>, during: seq<seq<Arrival<F>>>): seq<Step<F>> {
    SwapSteps(early) + FunctorSteps(during) + [EndFunctors]
  }

  function SwapSteps<F>(early: seq<Arrival<F>>): seq<Step<F>> {
    [BeginFunctors] + ArrivalSteps(Swapping, early) + [SwapFunctors]
  }

  /** Polling, reading the eventfd if the poller reports it, and the handlers, which queue `handled`. */
  function PollSteps<F>(active: bool, handled: seq<Arrival<F>>): seq<Step<F>> {
    (if active then [PollReturns(true), ReadWakeup] else [PollReturns(false)]) + ArrivalSteps(Dispatching, handled)
  }

  /** What arrived, in order. */
  function FunctorsOf<F>(arrivals: seq<Arrival<F>>): (functors: seq<F>)
    ensures |functors| == |arrivals|
  {
    if arrivals == [] then [] else FunctorsOf(arrivals[..|arrivals| - 1]) + [arrivals[|arrivals| - 1].f]
  }

  lemma RunNone<F>(s: Loop<F>)
    ensures RunSteps(s, []) == Some(s)
  {
  }

  lemma RunThen<F>(s: Loop<F>, steps: seq<Step<F>>, step: Step<F>)
    requires RunSteps(s, steps).Some? && Shape(RunSteps(s, steps).value) && Enabled(RunSteps(s, steps).value, step)
    ensures RunSteps(s, steps + [step]) == Some(Apply(RunSteps(s, steps).value, step))
  {
    assert (steps + [step])[..|steps|] == steps;
  }

  /** A push and, from another thread or while functors run, the wakeup. */
  lemma QueueRuns<F>(s: Loop<F>, a: Arrival<F>)
    requires Shape(s) && s.waking == {} && !s.selfWaking
    requires a.caller.None? ==> s.pc.Before? || s.pc.Dispatching? || s.pc.Running?
    ensures RunSteps(s, QueueSteps(s.pc, a))
         == Some(s.(q := s.q.Push(a.f), enqueued := s.enqueued + [a.f],
                    counter := if a.caller.Some? || s.calling then Bump(s.counter) else s.counter))
  {
    var steps := QueueSteps(s.pc, a);
    RunOne(s, steps[0]);
    if |steps| == 2 {
      assert steps == [steps[0]] + [steps[1]];
      RunThen(s, [steps[0]], steps[1]);
    }
  }
}

module EventLoops {
  import opened Text
  import opened FunctorQueues
  import opened EventLoopSpec

  /** The loop object, its critical sections as methods.  Functors are values.  `pc`, `woken` and the vector swapped
      out (`batch`, and `ran` of it) are the local state of `loop()`; `executed` and `enqueued` record the order in
      which functors ran and were queued. */
  class EventLoop<F> {
    var looping: bool
    var pendingFunctors: seq<F>
    var callingPendingFunctors: bool
    var wakeupCounter: nat
    ghost var pc: Pc
    ghost var woken: bool
    ghost var batch: seq<F>
    ghost var ran: seq<F>
    ghost var enqueued: seq<F>
    ghost var executed: seq<F>

    ghost function View(): Loop<F>
      reads this
    {
      Loop(pc, Queue(pendingFunctors, batch, ran), callingPendingFunctors, wakeupCounter, woken, {}, false,
           enqueued, executed)
    }

    ghost predicate Valid()
      reads this
    {
      Shape(View()) && Fifo(View()) && (looping <==> !pc.Before?)
    }

    constructor ()
      ensures Valid() && View() == Fresh()
    {
      looping, pendingFunctors, callingPendingFunctors, wakeupCounter := false, [], false, 0;
      pc, woken, batch, ran, enqueued, executed := Before, false, [], [], [], [];
    }

    /** The start of `loop()`. */
    method Enter()
      requires Valid() && !looping
      modifies this`looping, this`pc
      ensures Valid() && RunSteps(old(View()), [EnterLoop]) == Some(View())
    {
      looping := true;
      pc := Polling;
      RunOne(old(View()), EnterLoop);
    }

    method Wakeup()
      modifies this`wakeupCounter
      ensures wakeupCounter == Bump(old(wakeupCounter)) && wakeupCounter > 0
    {
      if wakeupCounter < COUNTER_MAX {
        wakeupCounter := wakeupCounter + 1;
      }
    }

    /** Reads, and so clears, the eventfd. */
    method HandleRead()
      requires Valid() && woken
      modifies this`wakeupCounter, this`woken
      ensures Valid() && RunSteps(old(View()), [ReadWakeup]) == Some(View())
      ensures wakeupCounter == 0 && !woken
    {
      wakeupCounter := 0;
      woken := false;
      RunOne(old(View()), ReadWakeup);
    }

    /** The loop thread calls it from where it runs user code. */
    method QueueInLoop(a: Arrival<F>)
      requires Valid() && (a.caller.None? ==> pc.Before? || pc.Dispatching? || pc.Running?)
      modifies this`pendingFunctors, this`wakeupCounter, this`enqueued
      ensures Valid() && RunSteps(old(View()), QueueSteps(pc, a)) == Some(View())
      ensures pendingFunctors == old(pendingFunctors) + [a.f] && enqueued == old(enqueued) + [a.f]
      ensures wakeupCounter == if a.caller.Some? || callingPendingFunctors then Bump(old(wakeupCounter))
                               else old(wakeupCounter)
    {
      pendingFunctors := pendingFunctors + [a.f];
      enqueued := enqueued + [a.f];
      if a.caller.Some? || callingPendingFunctors {
        Wakeup();
      }
      QueueRuns(old(View()), a);
      RunKeeps(old(View()), QueueSteps(pc, a));
    }

    method QueueAll(arrivals: seq<Arrival<F>>)
      requires Valid() && forall a | a in arrivals :: a.caller.None? ==> pc.Before? || pc.Dispatching? || pc.Running?
      modifies this`pendingFunctors, this`wakeupCounter, this`enqueued
      ensures Valid() && RunSteps(old(View()), ArrivalSteps(pc, arrivals)) == Some(View())
      ensures pendingFunctors == old(pendingFunctors) + FunctorsOf(arrivals)
      ensures enqueued == old(enqueued) + FunctorsOf(arrivals)
      ensures wakeupCounter >= old(wakeupCounter)
      ensures arrivals != [] && callingPendingFunctors ==> wakeupCounter > 0
    {
      hide RunSteps, QueueSteps;
      RunNone(old(View()));
      var i := 0;
      while i < |arrivals|
        invariant 0 <= i <= |arrivals| && Valid()
        invariant RunSteps(old(View()), ArrivalSteps(pc, arrivals[..i])) == Some(View())
        invariant pendingFunctors == old(pendingFunctors) + FunctorsOf(arrivals[..i])
        invariant enqueued == old(enqueued) + FunctorsOf(arrivals[..i])
        invariant wakeupCounter >= old(wakeupCounter)
        invariant i > 0 && callingPendingFunctors ==> wakeupCounter > 0
      {
        QueueInLoop(arrivals[i]);
        assert arrivals[..i + 1][..i] == arrivals[..i];
        RunStepsAppend(old(View()), ArrivalSteps(pc, arrivals[..i]), QueueSteps(pc, arrivals[i]));
        i := i + 1;
      }
      assert arrivals[..|arrivals|] == arrivals;
    }

    /** The next functor of the batch runs, and `more` arrives while it does. */
    method RunFunctor(f: F, more: seq<Arrival<F>>)
      requires Valid() && pc.Running? && batch != [] && batch[0] == f
      modifies this`pendingFunctors, this`wakeupCounter, this`batch, this`ran, this`enqueued, this`executed
      ensures Valid() && RunSteps(old(View()), [Step.RunFunctor] + ArrivalSteps(Running, more)) == Some(View())
      ensures executed == old(executed) + [f] && batch == old(batch)[1..]
      ensures pendingFunctors == old(pendingFunctors) + FunctorsOf(more)
      ensures wakeupCounter >= old(wakeupCounter) && (more != [] ==> wakeupCounter > 0)
    {
      hide RunSteps;
      executed, batch, ran := executed + [f], batch[1..], ran + [f];
      RunOne(old(View()), Step.RunFunctor);
      StepKeeps(old(View()), Step.RunFunctor);
      QueueAll(more);
      RunStepsAppend(old(View()), [Step.RunFunctor], ArrivalSteps(Running, more));
    }

    /** Runs what is pending, in order, with what other threads queue before the swap (`early`).  What arrives while
        the functors run, from them or from other threads (`during[i]` while the i-th does), is left for the next
        iteration, and has woken the poller. */
    method DoPendingFunctors(early: seq<Arrival<F>>, during: seq<seq<Arrival<F>>>)
      requires Valid() && pc.Dispatching? && !woken
      requires |during| == |pendingFunctors| + |early| && forall a | a in early :: a.caller.Some?
      modifies this
      ensures Valid() && RunSteps(old(View()), BatchSteps(early, during)) == Some(View())
      ensures pc.Polling? && looping == old(looping)
      ensures executed == old(enqueued) + FunctorsOf(early)
      ensures enqueued == executed + pendingFunctors
      ensures pendingFunctors != [] ==> wakeupCounter > 0
      ensures (exists i :: 0 <= i < |during| && during[i] != []) <==> pendingFunctors != []
      ensures wakeupCounter >= old(wakeupCounter)
    {
      hide RunSteps, ArrivalSteps, FunctorSteps, FunctorsOf, Enabled, Apply;
      ghost var s := View();
      BeginFunctors(early);
      var functors := SwapFunctors();
      RunStepsAppend(s, [Step.BeginFunctors] + ArrivalSteps(Swapping, early), [Step.SwapFunctors]);
      RunBatch(functors, during);
      RunStepsAppend(s, SwapSteps(early), FunctorSteps(during));
      EndFunctors();
      RunStepsAppend(s, SwapSteps(early) + FunctorSteps(during), [Step.EndFunctors]);
    }

    /** `_callingPendingFunctors` is set, and other threads queue functors. */
    method BeginFunctors(early: seq<Arrival<F>>)
      requires Valid() && pc.Dispatching? && !woken && forall a | a in early :: a.caller.Some?
      modifies this`pc, this`callingPendingFunctors, this`pendingFunctors, this`wakeupCounter, this`enqueued
      ensures Valid() && RunSteps(old(View()), [Step.BeginFunctors] + ArrivalSteps(Swapping, early)) == Some(View())
      ensures pc.Swapping? && pendingFunctors == old(pendingFunctors) + FunctorsOf(early)
      ensures wakeupCounter >= old(wakeupCounter)
    {
      hide RunSteps, ArrivalSteps, FunctorsOf;
      ghost var s := View();
      callingPendingFunctors := true;
      pc := Swapping;
      RunOne(s, Step.BeginFunctors);
      StepKeeps(s, Step.BeginFunctors);
      QueueAll(early);
      RunStepsAppend(s, [Step.BeginFunctors], ArrivalSteps(Swapping, early));
    }

    /** The critical section: what is pending becomes the batch. */
    method SwapFunctors() returns (functors: seq<F>)
      requires Valid() && pc.Swapping?
      modifies this`pc, this`pendingFunctors, this`batch, this`ran
      ensures Valid() && RunSteps(old(View()), [Step.SwapFunctors]) == Some(View())
      ensures pc.Running? && batch == functors == old(pendingFunctors) && pendingFunctors == []
    {
      hide RunSteps;
      functors := pendingFunctors;
      pendingFunctors := [];
      pc, batch, ran := Running, functors, [];
      RunOne(old(View()), Step.SwapFunctors);
      StepKeeps(old(View()), Step.SwapFunctors);
    }

    method RunBatch(functors: seq<F>, during: seq<seq<Arrival<F>>>)
      requires Valid() && pc.Running? && batch == functors && pendingFunctors == [] && |during| == |functors|
      modifies this`pendingFunctors, this`wakeupCounter, this`batch, this`ran, this`enqueued, this`executed
      ensures Valid() && RunSteps(old(View()), FunctorSteps(during)) == Some(View())
      ensures executed == old(executed) + functors && batch == []
      ensures pendingFunctors != [] ==> wakeupCounter > 0
      ensures (exists i :: 0 <= i < |during| && during[i] != []) <==> pendingFunctors != []
      ensures wakeupCounter >= old(wakeupCounter)
    {
      hide RunSteps, ArrivalSteps, FunctorsOf;
      RunNone(old(View()));
      var i := 0;
      while i < |functors|
        invariant 0 <= i <= |functors| && Valid()
        invariant batch == functors[i..] && executed == old(executed) + functors[..i]
        invariant RunSteps(old(View()), FunctorSteps(during[..i])) == Some(View())
        invariant wakeupCounter >= old(wakeupCounter)
        invariant pendingFunctors != [] ==> wakeupCounter > 0
        invariant (exists k :: 0 <= k < i && during[k] != []) <==> pendingFunctors != []
      {
        RunFunctor(functors[i], during[i]);
        assert during[..i + 1][..i] == during[..i];
        RunStepsAppend(old(View()), FunctorSteps(during[..i]), [Step.RunFunctor] + ArrivalSteps(Running, during[i]));
        assert FunctorSteps(during[..i + 1])
            == FunctorSteps(during[..i]) + ([Step.RunFunctor] + ArrivalSteps(Running, during[i]));
        i := i + 1;
      }
      assert functors[..i] == functors && during[..i] == during;
    }

    /** The end of the batch: the vector goes with the functors in it. */
    method EndFunctors()
      requires Valid() && pc.Running? && batch == []
      modifies this`pc, this`callingPendingFunctors, this`ran
      ensures Valid() && RunSteps(old(View()), [Step.EndFunctors]) == Some(View()) && pc.Polling?
    {
      hide RunSteps;
      callingPendingFunctors := false;
      pc, ran := Polling, [];
      RunOne(old(View()), Step.EndFunctors);
      StepKeeps(old(View()), Step.EndFunctors);
    }

    /** One turn of `loop()`: the poller returns, handlers run, then the functors. */
    method Turn(active: bool, handled: seq<Arrival<F>>, early: seq<Arrival<F>>, during: seq<seq<Arrival<F>>>)
      requires Valid() && pc.Polling? && (active ==> wakeupCounter > 0)
      requires |during| == |pendingFunctors| + |handled| + |early| && forall a | a in early :: a.caller.Some?
      modifies this
      ensures Valid() && pc.Polling?
      ensures RunSteps(old(View()), PollSteps(active, handled) + BatchSteps(early, during)) == Some(View())
      ensures executed == old(enqueued) + FunctorsOf(handled) + FunctorsOf(early)
    {
      hide RunSteps, ArrivalSteps, BatchSteps, FunctorsOf;
      ghost var s := View();
      Poll(active);
      ghost var polled := if active then [PollReturns(true), ReadWakeup] else [PollReturns(false)];
      QueueAll(handled);
      RunStepsAppend(s, polled, ArrivalSteps(Dispatching, handled));
      DoPendingFunctors(early, during);
      RunStepsAppend(s, PollSteps(active, handled), BatchSteps(early, during));
    }

    /** The poller returns, and the wakeup channel is handled if it is active. */
    method Poll(active: bool)
      requires Valid() && pc.Polling? && (active ==> wakeupCounter > 0)
      modifies this`pc, this`woken, this`wakeupCounter
      ensures Valid() && pc.Dispatching? && !woken
      ensures RunSteps(old(View()), if active then [PollReturns(true), ReadWakeup] else [PollReturns(false)])
           == Some(View())
    {
      hide RunSteps;
      ghost var s := View();
      pc, woken := Dispatching, active;
      RunOne(s, PollReturns(active));
      StepKeeps(s, PollReturns(active));
      if active {
        HandleRead();
        ghost var polled: seq<Step<F>>, read: seq<Step<F>> := [PollReturns(true)], [ReadWakeup];
        RunStepsAppend(s, polled, read);
        assert polled + read == [PollReturns(true), ReadWakeup];
      }
    }
  }
}
