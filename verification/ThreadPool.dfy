/** The thread pool (src/base/ThreadPool.cpp): workers share a queue and a stop flag under a mutex and
    wait on one condition variable.  A step is what a thread does while it holds the mutex, or one read
    of the flag outside it. */
module PoolSpec {
  import opened Text

  /** Where a worker is: reading `_stop` in the loop condition, before the mutex, blocked in `wait`,
      notified (or woken for no reason) but without the mutex yet, running a task, or gone. */
  datatype Worker<T> = AtCheck | AtLock | Parked | Signalled | Executing(task: T) | Exited

  /** `late[i]` counts the tasks worker `i` took after `stop`. */
  datatype Pool<T> = Pool(queue: seq<T>, stop: bool, started: bool, workers: seq<Worker<T>>,
                          added: seq<T>, dequeued: seq<T>, late: seq<nat>)

  /** `Launch` is `start`, with its number of threads; `AddTask` pushes, and `notify_one` wakes `woken`;
      `Enter` is a worker that gets the mutex and evaluates the condition; `Spurious` is a wakeup without
      a notification. */
  datatype Step<T> =
    | Launch(n: nat)
    | AddTask(task: T, woken: Option<nat>)
    | Stop
    | Check(i: nat)
    | Enter(i: nat)
    | Spurious(i: nat)
    | Finish(i: nat)

  /** `notify_one` wakes a parked worker if there is one, and any it likes. */
  predicate MayWake<T>(ws: seq<Worker<T>>, woken: Option<nat>) {
    match woken
    case Some(k) => k < |ws| && ws[k].Parked?
    case None => forall k | 0 <= k < |ws| :: !ws[k].Parked?
  }

  predicate CanDo<T>(p: Pool<T>, step: Step<T>) {
    match step
    case Launch(_) => !p.started
    case AddTask(_, woken) => MayWake(p.workers, woken)
    case Stop => true
    case Check(i) => i < |p.workers| && p.workers[i].AtCheck?
    case Enter(i) => i < |p.workers| && (p.workers[i].AtLock? || p.workers[i].Signalled?)
    case Spurious(i) => i < |p.workers| && p.workers[i].Parked?
    case Finish(i) => i < |p.workers| && p.workers[i].Executing?
  }

  function Notified<T>(ws: seq<Worker<T>>, woken: Option<nat>): seq<Worker<T>>
    requires MayWake(ws, woken)
  {
    if woken.Some? then ws[woken.value := Signalled] else ws
  }

  /** `notify_all`. */
  function AllNotified<T>(ws: seq<Worker<T>>): (r: seq<Worker<T>>)
    ensures |r| == |ws| && forall i | 0 <= i < |ws| :: r[i] == if ws[i].Parked? then Signalled else ws[i]
  {
    seq(|ws|, i requires 0 <= i < |ws| => if ws[i].Parked? then Signalled else ws[i])
  }

  /** A worker with the mutex: it waits, leaves, or takes the first task. */
  function Entered<T>(p: Pool<T>, i: nat): Pool<T>
    requires i < |p.workers| == |p.late|
  {
    if !p.stop && p.queue == [] then p.(workers := p.workers[i := Parked])
    else if p.queue == [] then p.(workers := p.workers[i := Exited])
    else p.(queue := p.queue[1..], dequeued := p.dequeued + [p.queue[0]],
            workers := p.workers[i := Executing(p.queue[0])],
            late := if p.stop then p.late[i := p.late[i] + 1] else p.late)
  }

  /** `start`: the workers are about to read the stop flag, which is cleared. */
  function Launched<T>(p: Pool<T>, n: nat): Pool<T> {
    p.(stop := false, started := true, workers := seq(n, _ => AtCheck), late := seq(n, _ => 0))
  }

  function Do<T>(p: Pool<T>, step: Step<T>): Pool<T>
    requires CanDo(p, step) && |p.workers| == |p.late|
  {
    match step
    case Launch(n) => Launched(p, n)
    case AddTask(task, woken) =>
      p.(queue := p.queue + [task], added := p.added + [task], workers := Notified(p.workers, woken))
    case Stop => p.(stop := true, workers := AllNotified(p.workers))
    case Check(i) => p.(workers := p.workers[i := if p.stop then Exited else AtLock])
    case Enter(i) => Entered(p, i)
    case Spurious(i) => p.(workers := p.workers[i := Signalled])
    case Finish(i) => p.(workers := p.workers[i := AtCheck])
  }

  /** A pool as it is made, without workers. */
  function Made<T>(): (p: Pool<T>)
    ensures |p.workers| == |p.late| == 0
  {
    Pool([], false, false, [], [], [], [])
  }

  function Run<T>(p: Pool<T>, steps: seq<Step<T>>): (r: Option<Pool<T>>)
    requires |p.workers| == |p.late|
    ensures r.Some? ==> |r.value.workers| == |r.value.late|
  {
    if steps == [] then Some(p)
    else
      match Run(p, steps[..|steps| - 1])
      case None => None
      case Some(q) => if CanDo(q, steps[|steps| - 1]) then Some(Do(q, steps[|steps| - 1])) else None
  }

  /** How many workers are signalled. */
  ghost function Awake<T>(ws: seq<Worker<T>>): nat { multiset(ws)[Signalled] }

  /** While a worker is parked, every queued task has a signalled worker of its own. */
  ghost predicate NoneAsleep<T>(p: Pool<T>) {
    (exists i :: 0 <= i < |p.workers| && p.workers[i].Parked?) ==> |p.queue| <= Awake(p.workers)
  }

  /** After `stop` nobody is parked, and a worker that has taken a task since takes no other. */
  predicate Stopping<T>(p: Pool<T>)
    requires |p.workers| == |p.late|
  {
    forall i | 0 <= i < |p.workers| ::
      if !p.stop then p.late[i] == 0
      else
        match p.workers[i]
        case Parked => false
        case AtLock => p.late[i] == 0
        case Signalled => p.late[i] == 0
        case _ => p.late[i] <= 1
  }

  /** A worker leaves only after `stop`. */
  predicate Staying<T>(p: Pool<T>) {
    !p.stop ==> forall i | 0 <= i < |p.workers| :: !p.workers[i].Exited?
  }

  ghost predicate Inv<T>(p: Pool<T>) {
    && |p.workers| == |p.late| && (!p.started ==> p.workers == []) && Staying(p)
    && p.dequeued + p.queue == p.added && NoneAsleep(p) && Stopping(p)
  }

  lemma AddTaskKeeps<T>(p: Pool<T>, task: T, woken: Option<nat>)
    requires Inv(p) && MayWake(p.workers, woken)
    ensures Inv(Do(p, AddTask(task, woken)))
  {
    var q := Do(p, AddTask(task, woken));
    assert p.dequeued + (p.queue + [task]) == p.dequeued + p.queue + [task];
    if woken.Some? {
      assert Awake(q.workers) == Awake(p.workers) + 1;
    }
  }

  lemma EnterKeeps<T>(p: Pool<T>, i: nat)
    requires Inv(p) && CanDo(p, Enter(i))
    ensures Inv(Entered(p, i))
  {
    var q := Entered(p, i);
    assert Awake(q.workers) >= Awake(p.workers) - 1;
    if p.queue != [] {
      assert p.dequeued + [p.queue[0]] + p.queue[1..] == p.dequeued + p.queue;
      if k :| 0 <= k < |q.workers| && q.workers[k].Parked? {
        assert p.workers[k].Parked?;
      }
    }
  }

  lemma StepKeeps<T>(p: Pool<T>, step: Step<T>)
    requires Inv(p) && CanDo(p, step)
    ensures Inv(Do(p, step))
  {
    hide NoneAsleep, Stopping, Staying;
    match step
    case Launch(n) => LaunchKeeps(p, n);
    case AddTask(task, woken) => AddTaskKeeps(p, task, woken);
    case Stop => StopKeeps(p);
    case Enter(i) => EnterKeeps(p, i);
    case _ => WorkerKeeps(p, step);
  }

  lemma LaunchKeeps<T>(p: Pool<T>, n: nat)
    requires Inv(p) && !p.started
    ensures Inv(Launched(p, n))
  {
  }

  lemma StopKeeps<T>(p: Pool<T>)
    requires Inv(p)
    ensures Inv(Do(p, Stop))
  {
  }

  lemma WorkerKeeps<T>(p: Pool<T>, step: Step<T>)
    requires Inv(p) && CanDo(p, step) && (step.Check? || step.Spurious? || step.Finish?)
    ensures Inv(Do(p, step))
  {
    hide NoneAsleep;
    WorkerMoves(p, step.i, Do(p, step).workers[step.i]);
  }

  /** A worker that is not signalled, and does not park, takes nothing from the others. */
  lemma WorkerMoves<T>(p: Pool<T>, i: nat, w: Worker<T>)
    requires Inv(p) && i < |p.workers| && !p.workers[i].Signalled? && !w.Parked?
    ensures NoneAsleep(p.(workers := p.workers[i := w]))
  {
    var q := p.(workers := p.workers[i := w]);
    assert Awake(q.workers) >= Awake(p.workers);
    if k :| 0 <= k < |q.workers| && q.workers[k].Parked? {
      assert p.workers[k].Parked?;
    }
  }

  lemma {:induction false} EveryRun<T>(steps: seq<Step<T>>)
    ensures Run(Made(), steps).Some? ==> Inv(Run(Made(), steps).value)
  {
    hide Do, CanDo;
    if steps == [] {
    } else {
      var before := Run(Made(), steps[..|steps| - 1]);
      EveryRun(steps[..|steps| - 1]);
      if before.Some? && CanDo(before.value, steps[|steps| - 1]) {
        StepKeeps(before.value, steps[|steps| - 1]);
      }
    }
  }

  /** No task waits for ever behind a sleeping worker: a parked worker and a queued task mean that
      another worker has been notified, and it can take the task. */
  lemma TaskHasAWorker<T>(p: Pool<T>) returns (i: nat)
    requires Inv(p) && p.queue != [] && exists k :: 0 <= k < |p.workers| && p.workers[k].Parked?
    ensures CanDo(p, Enter(i)) && Do(p, Enter(i)).dequeued == p.dequeued + [p.queue[0]]
  {
    assert Signalled in multiset(p.workers);
    i :| 0 <= i < |p.workers| && p.workers[i] == Signalled;
  }

  /** A worker with the mutex waits exactly when nothing is queued and the pool runs, leaves exactly when nothing is
      queued and it is stopped, and otherwise takes the task at the head of the queue; the others stay as they are. */
  lemma EnterExactly<T>(p: Pool<T>, i: nat)
    requires Inv(p) && CanDo(p, Enter(i))
    ensures var q := Do(p, Enter(i));
      && |q.workers| == |p.workers| && (forall k | 0 <= k < |p.workers| && k != i :: q.workers[k] == p.workers[k])
      && (q.workers[i].Parked? <==> p.queue == [] && !p.stop)
      && (q.workers[i].Exited? <==> p.queue == [] && p.stop)
      && (q.workers[i].Executing? <==> p.queue != [])
      && (p.queue != [] ==> p.queue == [q.workers[i].task] + q.queue)
  {
  }

  /** `start` makes `n` workers, in a pool that is not stopped. */
  lemma LaunchExactly<T>(p: Pool<T>, n: nat)
    requires Inv(p) && CanDo(p, Launch(n))
    ensures var q := Do(p, Launch(n));
      !q.stop && |q.workers| == n && (forall i | 0 <= i < n :: q.workers[i] == AtCheck) && q.queue == p.queue
  {
  }

  /** The steps of worker `i` up to taking a task. */
  function Fetch<T>(w: Worker<T>, i: nat): seq<Step<T>> {
    match w
    case Executing(_) => [Finish(i), Check(i), Enter(i)]
    case AtCheck => [Check(i), Enter(i)]
    case _ => [Enter(i)]
  }

  lemma RunThen<T>(p: Pool<T>, steps: seq<Step<T>>, step: Step<T>)
    requires Inv(p) && Run(p, steps).Some? && CanDo(Run(p, steps).value, step)
    ensures Run(p, steps + [step]) == Some(Do(Run(p, steps).value, step))
  {
    assert (steps + [step])[..|steps|] == steps;
  }

  lemma {:induction false} RunAppend<T>(p: Pool<T>, xs: seq<Step<T>>, ys: seq<Step<T>>)
    requires Inv(p) && Run(p, xs).Some?
    ensures Run(p, xs + ys) == Run(Run(p, xs).value, ys)
    decreases |ys|
  {
    hide Do, CanDo, Inv;
    if ys == [] {
      assert xs + ys == xs;
    } else {
      assert (xs + ys)[..|xs + ys| - 1] == xs + ys[..|ys| - 1];
      RunAppend(p, xs, ys[..|ys| - 1]);
    }
  }

  /** What a worker does before does not matter to what it takes. */
  lemma EnteredFrom<T>(p: Pool<T>, i: nat, w: Worker<T>)
    requires i < |p.workers| == |p.late|
    ensures Entered(p.(workers := p.workers[i := w]), i) == Entered(p, i)
  {
    SetTwice(p.workers, i, w, Parked);
    SetTwice(p.workers, i, w, Exited);
    if p.queue != [] { SetTwice(p.workers, i, w, Executing(p.queue[0])); }
  }

  lemma SetTwice<T>(ws: seq<Worker<T>>, i: nat, w: Worker<T>, v: Worker<T>)
    requires i < |ws|
    ensures ws[i := w][i := v] == ws[i := v]
  {
  }

  lemma LockTakes<T>(p: Pool<T>, i: nat)
    requires Inv(p) && i < |p.workers| && (p.workers[i].AtLock? || p.workers[i].Signalled?)
    ensures Run(p, [Enter(i)]) == Some(Entered(p, i))
  {
    hide Run, NoneAsleep, Stopping;
    RunOne(p, Enter(i));
  }

  lemma CheckTakes<T>(p: Pool<T>, i: nat)
    requires Inv(p) && !p.stop && i < |p.workers| && p.workers[i].AtCheck?
    ensures Run(p, [Check(i), Enter(i)]) == Some(Entered(p, i))
  {
    hide Run, NoneAsleep, Stopping, Entered;
    var check: seq<Step<T>> := [Check(i)];
    RunOne(p, Check(i));
    RunThen(p, check, Enter(i));
    assert check + [Enter(i)] == [Check(i), Enter(i)];
    EnteredFrom(p, i, AtLock);
  }

  lemma FinishTakes<T>(p: Pool<T>, i: nat)
    requires Inv(p) && !p.stop && i < |p.workers| && p.workers[i].Executing?
    ensures Run(p, [Finish(i), Check(i), Enter(i)]) == Some(Entered(p, i))
  {
    hide Run, NoneAsleep, Stopping, Entered;
    var finish: seq<Step<T>>, take: seq<Step<T>> := [Finish(i)], [Check(i), Enter(i)];
    RunOne(p, Finish(i));
    StepKeeps(p, Finish(i));
    CheckTakes(Do(p, Finish(i)), i);
    RunAppend(p, finish, take);
    assert finish + take == [Finish(i), Check(i), Enter(i)];
    EnteredFrom(p, i, AtCheck);
  }

  /** While the pool runs, a worker that is not parked comes to take the head of the queue. */
  lemma FetchTakes<T>(p: Pool<T>, i: nat)
    requires Inv(p) && !p.stop && i < |p.workers| && !p.workers[i].Parked?
    ensures Run(p, Fetch(p.workers[i], i)) == Some(Entered(p, i))
  {
    hide Run, Entered;
    match p.workers[i]
    case Executing(_) => FinishTakes(p, i);
    case AtCheck => CheckTakes(p, i);
    case _ => LockTakes(p, i);
  }

  lemma RunOne<T>(p: Pool<T>, step: Step<T>)
    requires Inv(p) && CanDo(p, step)
    ensures Run(p, [step]) == Some(Do(p, step))
  {
    NoSteps(p);
    assert [step][..0] == [];
  }

  lemma NoSteps<T>(p: Pool<T>)
    requires Inv(p)
    ensures Run(p, []) == Some(p)
  {
  }

  /** In every reachable state of a pool that runs, a queued task can be taken: some worker is not parked, and it
      comes to take the head of the queue without any spurious wakeup. */
  lemma HeadIsTaken<T>(p: Pool<T>) returns (steps: seq<Step<T>>, q: Pool<T>)
    requires Inv(p) && !p.stop && p.queue != [] && p.workers != []
    ensures forall i | 0 <= i < |steps| :: IsWorkerStep(steps[i]) && !steps[i].Spurious?
    ensures Run(p, steps) == Some(q) && Inv(q) && !q.stop && q.workers != []
    ensures q.dequeued == p.dequeued + [p.queue[0]] && q.queue == p.queue[1..] && q.added == p.added
  {
    hide Run;
    var i := 0;
    if p.workers[0].Parked? { i := TaskHasAWorker(p); }
    FetchTakes(p, i);
    EnterTakes(p, i);
    steps, q := Fetch(p.workers[i], i), Entered(p, i);
  }

  lemma EnterTakes<T>(p: Pool<T>, i: nat)
    requires Inv(p) && p.queue != [] && i < |p.workers| && !p.stop && !p.workers[i].Parked?
    ensures Inv(Entered(p, i)) && !Entered(p, i).stop && Entered(p, i).workers != []
  {
    assert !p.workers[i].Exited?;
  }

  /** And so can all of them, in order, if nothing else is added meanwhile. */
  lemma {:induction false} QueueIsTaken<T>(p: Pool<T>) returns (steps: seq<Step<T>>, q: Pool<T>)
    requires Inv(p) && !p.stop && p.workers != []
    ensures forall i | 0 <= i < |steps| :: IsWorkerStep(steps[i]) && !steps[i].Spurious?
    ensures Run(p, steps) == Some(q) && q.queue == [] && q.dequeued == p.added
    decreases |p.queue|
  {
    hide Run;
    if p.queue == [] {
      NoSteps(p);
      steps, q := [], p;
      assert p.dequeued + [] == p.dequeued;
    } else {
      var first, p1 := HeadIsTaken(p);
      var more: seq<Step<T>>;
      more, q := QueueIsTaken(p1);
      RunAppend(p, first, more);
      steps := first + more;
    }
  }

  /** What a worker still has to do once the pool is stopped. */
  function Rank<T>(w: Worker<T>): nat {
    match w
    case Exited => 0
    case AtCheck => 1
    case Executing(_) => 2
    case _ => 3
  }

  function Ranks<T>(ws: seq<Worker<T>>): nat { if ws == [] then 0 else Rank(ws[0]) + Ranks(ws[1..]) }

  lemma {:induction false} RanksUpdate<T>(ws: seq<Worker<T>>, i: nat, w: Worker<T>)
    requires i < |ws|
    ensures Ranks(ws[i := w]) == Ranks(ws) - Rank(ws[i]) + Rank(w)
    decreases i
  {
    if i == 0 {
      assert ws[0 := w][1..] == ws[1..];
    } else {
      assert ws[i := w][1..] == ws[1..][i - 1 := w];
      RanksUpdate(ws[1..], i - 1, w);
    }
  }

  predicate IsWorkerStep<T>(step: Step<T>) { !step.Launch? && !step.AddTask? && !step.Stop? }

  /** After `stop` every step of a worker brings it closer to leaving. */
  lemma StoppedProgress<T>(p: Pool<T>, step: Step<T>)
    requires Inv(p) && p.stop && CanDo(p, step) && IsWorkerStep(step)
    ensures Ranks(Do(p, step).workers) < Ranks(p.workers)
  {
    if !step.Spurious? {
      RanksUpdate(p.workers, step.i, Do(p, step).workers[step.i]);
    }
  }

  /** And a worker that has not left can take a step, so that `join` returns. */
  lemma StoppedCanStep<T>(p: Pool<T>, i: nat) returns (step: Step<T>)
    requires Inv(p) && p.stop && i < |p.workers| && !p.workers[i].Exited?
    ensures CanDo(p, step) && IsWorkerStep(step)
  {
    step := match p.workers[i] case AtCheck => Check(i) case Executing(_) => Finish(i) case _ => Enter(i);
  }

  function WorkerSteps<T>(steps: seq<Step<T>>): nat {
    if steps == [] then 0
    else WorkerSteps(steps[..|steps| - 1]) + (if IsWorkerStep(steps[|steps| - 1]) then 1 else 0)
  }

  lemma {:induction false} RanksBound<T>(ws: seq<Worker<T>>)
    ensures Ranks(ws) <= 3 * |ws|
  {
    if ws == [] {
    } else {
      RanksBound(ws[1..]);
    }
  }

  /** Once stopped, the workers of a pool of `n` take at most `3 * n` more steps, whatever is added
      meanwhile, and each runs at most one more task. */
  lemma {:induction false} StopIsPrompt<T>(p: Pool<T>, steps: seq<Step<T>>)
    requires Inv(p) && p.stop && p.started && Run(p, steps).Some?
    ensures var q := Run(p, steps).value;
      && Inv(q) && q.stop && q.started && |q.workers| == |p.workers|
      && WorkerSteps(steps) + Ranks(q.workers) <= Ranks(p.workers) <= 3 * |p.workers|
      && forall i | 0 <= i < |q.late| :: q.late[i] <= 1
    decreases |steps|
  {
    RanksBound(p.workers);
    if steps == [] {
    } else {
      var step := steps[|steps| - 1];
      StopIsPrompt(p, steps[..|steps| - 1]);
      var before := Run(p, steps[..|steps| - 1]).value;
      StepKeeps(before, step);
      if IsWorkerStep(step) { StoppedProgress(before, step); } else { NothingParked(before, step); }
    }
  }

  lemma NothingParked<T>(p: Pool<T>, step: Step<T>)
    requires Inv(p) && p.stop && p.started && CanDo(p, step) && !IsWorkerStep(step)
    ensures Do(p, step).workers == p.workers
  {
  }
}

/** The pool itself: each method is one critical section, and a step of `PoolSpec`. */
module ThreadPools {
  import opened Text
  import opened PoolSpec

  class ThreadPool<T(!new)> {
    var queue: seq<T>
    var stop: bool
    var started: bool
    /** Where each worker is: the waiters of the condition variable are the parked ones. */
    var workers: seq<Worker<T>>
    ghost var added: seq<T>
    ghost var dequeued: seq<T>
    ghost var late: seq<nat>

    ghost function View(): Pool<T>
      reads this
    {
      Pool(queue, stop, started, workers, added, dequeued, late)
    }

    ghost predicate Valid()
      reads this
    {
      Inv(View())
    }

    constructor ()
      ensures Valid() && View() == Made<T>()
    {
      queue, stop, started, workers := [], false, false, [];
      added, dequeued, late := [], [], [];
    }

    /** `start`. */
    method Start(numThreads: nat)
      requires Valid() && !started
      modifies this
      ensures Valid() && View() == Do(old(View()), Launch(numThreads))
    {
      StepKeeps(View(), Launch(numThreads));
      stop, started := false, true;
      workers := seq(numThreads, _ => AtCheck);
      late := seq(numThreads, _ => 0);
    }

    /** `addTask`: `notify_one` wakes any one parked worker. */
    method AddTask(task: T) returns (woken: Option<nat>)
      requires Valid()
      modifies this
      ensures Valid() && MayWake(old(workers), woken)
      ensures View() == Do(old(View()), PoolSpec.AddTask(task, woken))
    {
      woken := None;
      if k :| 0 <= k < |workers| && workers[k].Parked? {
        woken := Some(k);
      }
      AddTaskKeeps(View(), task, woken);
      queue := queue + [task];
      if woken.Some? {
        workers := workers[woken.value := Signalled];
      }
      added := added + [task];
    }

    /** `stop`. */
    method Stop()
      requires Valid()
      modifies this
      ensures Valid() && View() == Do(old(View()), PoolSpec.Stop)
    {
      StepKeeps(View(), PoolSpec.Stop);
      stop := true;
      workers := AllNotified(workers);
    }

    /** Worker `i` gets the mutex and evaluates the condition: it waits, leaves, or takes a task. */
    method Enter(i: nat) returns (task: Option<T>)
      requires Valid() && CanDo(View(), PoolSpec.Enter(i))
      modifies this
      ensures Valid() && View() == Do(old(View()), PoolSpec.Enter(i))
      ensures task == if old(queue) == [] then None else Some(old(queue)[0])
    {
      hide NoneAsleep, Stopping;
      EnterKeeps(View(), i);
      task := None;
      if !stop && |queue| == 0 {
        workers := workers[i := Parked];
      } else if stop && |queue| == 0 {
        workers := workers[i := Exited];
      } else {
        task := Some(queue[0]);
        workers := workers[i := Executing(queue[0])];
        dequeued := dequeued + [queue[0]];
        late := if stop then late[i := late[i] + 1] else late;
        queue := queue[1..];
      }
    }
  }
}
