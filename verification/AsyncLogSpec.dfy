/** Double buffering of the asynchronous log (src/log/AsyncLogFile.cpp): producers append under a
    lock, one backend thread swaps the buffers out, writes them and takes two back.  A null buffer
    pointer is None. */
module LogSpec {
  import opened Text

  type Ptr = Option<string>

  /** Where the backend thread is: not started, before the lock, in `wait_for`, or past the critical
      section with `done` buffers written. */
  datatype Phase = NotStarted | AtLock | Waiting | Writing(done: nat)

  /** `written` is all that went to the file and `appended` all that was passed to `append`. */
  datatype Log = Log(current: Ptr, next: Ptr, buffers: seq<Ptr>, new1: Ptr, new2: Ptr, toWrite: seq<Ptr>,
                     phase: Phase, written: string, appended: string)

  const FRESH: Ptr := Some("")

  /** `FixedBuffer::append` on a buffer of `size` bytes: it starts over when the message does not
      fit with its terminator. */
  function Put(size: nat, content: string, msg: string): string {
    if size - |content| <= |msg| then msg else content + msg
  }

  /** The same, where bounds count: the terminator goes to the offset behind the contents, which must
      be in the buffer. */
  function Store(size: nat, content: string, msg: string): Ptr {
    var after := Put(size, content, msg);
    if |after| < size then Some(after) else None
  }

  /** The pointer that `append` leaves as current when the current buffer has no room. */
  function Spare(next: Ptr): Ptr { if next.Some? then next else FRESH }

  // Each operation is None where the code would dereference a null pointer, pop an empty vector or
  // write past the end of a buffer.

  /** `append`. */
  function Append(size: nat, s: Log, msg: string): Option<Log> {
    if s.current.None? then None
    else
      var room := size - |s.current.value| > |msg|;
      var stored := Store(size, if room then s.current.value else Spare(s.next).value, msg);
      if stored.None? then None
      else
        var s1 := s.(current := stored, appended := s.appended + msg);
        Some(if room then s1 else s1.(buffers := s.buffers + [s.current], next := None))
  }

  /** `flush`. */
  function Flush(s: Log): Option<Log> {
    if s.current.None? then None
    else if |s.current.value| > 0 then Some(s.(buffers := s.buffers + [s.current], current := FRESH))
    else Some(s)
  }

  /** The backend's critical section, after any wait. */
  function Swap(s: Log): Log {
    s.(buffers := s.toWrite, toWrite := s.buffers + [s.current], current := s.new1, new1 := None,
       next := if s.next.None? then s.new2 else s.next,
       new2 := if s.next.None? then None else s.new2,
       phase := Writing(0))
  }

  /** Writing one buffer. */
  function WriteOne(s: Log): Option<Log>
    requires s.phase.Writing? && s.phase.done < |s.toWrite|
  {
    var b := s.toWrite[s.phase.done];
    if b.None? then None
    else Some(s.(written := s.written + b.value, phase := Writing(s.phase.done + 1)))
  }

  /** Taking a buffer back from the end of the vector and resetting it: the pointer and what is left. */
  function TakeBack(p: Ptr, bs: seq<Ptr>): Option<(Ptr, seq<Ptr>)> {
    if p.Some? then Some((p, bs))
    else if bs == [] || bs[|bs| - 1].None? then None
    else Some((FRESH, bs[..|bs| - 1]))
  }

  /** The recycling at the end of an iteration. */
  function Recycle(s: Log): Option<Log> {
    var kept := if |s.toWrite| > 2 then s.toWrite[..2] else s.toWrite;
    match TakeBack(s.new1, kept)
    case None => None
    case Some((new1, rest)) =>
      match TakeBack(s.new2, rest)
      case None => None
      case Some((new2, _)) => Some(s.(new1 := new1, new2 := new2, toWrite := [], phase := AtLock))
  }

  /** The backend thread makes its own two buffers. */
  function Begin(s: Log): Log { s.(new1 := FRESH, new2 := FRESH, phase := AtLock) }

  /** `AppendMsg` and `FlushAll` are any producer's, before the backend starts too; `Enter` takes the
      lock, and waits if there is nothing to write; `Wake` is a notification, a timeout or a spurious
      wakeup. */
  datatype Step = AppendMsg(msg: string) | FlushAll | Launch | Enter | Wake | Write | TakeTwoBack

  /** Messages are shorter than a buffer. */
  predicate CanDo(size: nat, s: Log, step: Step) {
    match step
    case AppendMsg(msg) => |msg| < size
    case FlushAll => true
    case Launch => s.phase.NotStarted?
    case Enter => s.phase.AtLock?
    case Wake => s.phase.Waiting?
    case Write => s.phase.Writing? && s.phase.done < |s.toWrite|
    case TakeTwoBack => s.phase.Writing? && s.phase.done == |s.toWrite|
  }

  function Do(size: nat, s: Log, step: Step): Option<Log>
    requires CanDo(size, s, step)
  {
    match step
    case AppendMsg(msg) => Append(size, s, msg)
    case FlushAll => Flush(s)
    case Launch => Some(Begin(s))
    case Enter => Some(if s.buffers == [] then s.(phase := Waiting) else Swap(s))
    case Wake => Some(Swap(s))
    case Write => WriteOne(s)
    case TakeTwoBack => Recycle(s)
  }

  const START := Log(FRESH, FRESH, [], None, None, [], NotStarted, "", "")

  /** A run either is not a run of the protocol, or goes wrong, or ends in a state. */
  datatype Outcome = NotARun | Undefined | Reached(s: Log)

  function Run(size: nat, s: Log, steps: seq<Step>): Outcome {
    if steps == [] then Reached(s)
    else
      match Run(size, s, steps[..|steps| - 1])
      case Reached(s1) =>
        var step := steps[|steps| - 1];
        if !CanDo(size, s1, step) then NotARun
        else if Do(size, s1, step).None? then Undefined else Reached(Do(size, s1, step).value)
      case other => other
  }

  function Content(b: Ptr): string { if b.Some? then b.value else "" }

  /** The contents of buffers one after another. */
  function Concat(bs: seq<Ptr>): string { if bs == [] then "" else Content(bs[0]) + Concat(bs[1..]) }

  lemma {:induction false} ConcatSnoc(bs: seq<Ptr>, b: Ptr)
    ensures Concat(bs + [b]) == Concat(bs) + Content(b)
  {
    if bs == [] {
      assert [b][1..] == [] && Concat([b]) == Content(b) + "";
    } else {
      assert (bs + [b])[0] == bs[0] && (bs + [b])[1..] == bs[1..] + [b];
      ConcatSnoc(bs[1..], b);
      Regroup(Content(bs[0]), Concat(bs[1..]), Content(b));
    }
  }

  // What every step keeps

  predicate Live(size: nat, p: Ptr) { p.Some? && |p.value| < size }

  predicate EmptyOrNull(p: Ptr) { p.Some? ==> p.value == "" }

  /** What the backend still has to write. */
  function InFlight(s: Log): string {
    if s.phase.Writing? && s.phase.done <= |s.toWrite| then Concat(s.toWrite[s.phase.done..]) else ""
  }

  /** Nothing is lost, duplicated or reordered. */
  predicate Conserved(s: Log) {
    s.current.Some? && s.appended == s.written + InFlight(s) + Concat(s.buffers) + s.current.value
  }

  /** Pointers: the current buffer is never null, the spare one is null only while a full buffer is
      queued, spares and recycled buffers are empty, and the backend holds as many buffers as it must
      take back. */
  ghost predicate Recyclable(size: nat, s: Log) {
    && size > 0 && Live(size, s.current) && (forall b | b in s.buffers :: Live(size, b))
    && EmptyOrNull(s.next) && (s.next.None? ==> s.buffers != [])
    && (forall b | b in s.toWrite :: Live(size, b))
    && EmptyOrNull(s.new1) && EmptyOrNull(s.new2)
    && match s.phase
       case Writing(done) =>
         done <= |s.toWrite| && s.new1.None? && |s.toWrite| >= (if s.new2.None? then 2 else 1)
       case NotStarted => s.toWrite == [] && s.new1.None? && s.new2.None?
       case _ => s.toWrite == [] && s.new1.Some? && s.new2.Some?
  }

  ghost predicate Inv(size: nat, s: Log) { Recyclable(size, s) && Conserved(s) }

  /** What the buffer that takes the message holds before. */
  function Target(size: nat, s: Log, msg: string): string
    requires s.current.Some?
  {
    if size - |s.current.value| > |msg| then s.current.value else Spare(s.next).value
  }

  /** A message never makes a buffer start over, and leaves room for the terminator.  The current buffer is queued
      exactly when the message does not fit behind what it holds. */
  lemma AppendFits(size: nat, s: Log, msg: string)
    requires Recyclable(size, s) && |msg| < size
    ensures size - |Target(size, s, msg)| > |msg| && Append(size, s, msg).Some?
    ensures var s1 := Append(size, s, msg).value;
      if |s.current.value| + |msg| < size then
        s1 == s.(current := Some(s.current.value + msg), appended := s.appended + msg)
      else
        s1 == s.(buffers := s.buffers + [s.current], current := Some(msg), next := None,
                 appended := s.appended + msg)
    ensures Recyclable(size, Append(size, s, msg).value)
  {
    assert "" + msg == msg;
  }

  lemma AppendCases(size: nat, s: Log, msg: string)
    requires Recyclable(size, s) && |msg| < size
    ensures var s1 := Append(size, s, msg);
      if size - |s.current.value| > |msg| then
        s1 == Some(s.(current := Some(Put(size, s.current.value, msg)), appended := s.appended + msg))
      else
        s1 == Some(s.(buffers := s.buffers + [s.current], current := Some(Put(size, Spare(s.next).value, msg)),
                      next := None, appended := s.appended + msg))
  {
  }

  /** In every state the protocol reaches, `append` stays within its buffer exactly for messages shorter
      than a buffer: the spare buffer is empty. */
  lemma AppendSafeExactly(size: nat, s: Log, msg: string)
    requires Recyclable(size, s)
    ensures Append(size, s, msg).Some? <==> |msg| < size
  {
    assert "" + msg == msg;
  }

  lemma AppendKeeps(size: nat, s: Log, msg: string)
    requires Inv(size, s) && |msg| < size
    ensures Append(size, s, msg).Some? && Inv(size, Append(size, s, msg).value)
  {
    hide Append, Concat, Recyclable;
    AppendFits(size, s, msg);
    ConcatSnoc(s.buffers, s.current);
    var s1 := Append(size, s, msg).value;
    CurrentIsLive(size, s);
    assert InFlight(s1) == InFlight(s);
    var before := s.written + InFlight(s) + Concat(s.buffers);
    Regroup(before, s.current.value, msg);
    Regroup(s.written + InFlight(s), Concat(s.buffers), s.current.value);
  }

  lemma CurrentIsLive(size: nat, s: Log)
    requires Recyclable(size, s)
    ensures Live(size, s.current) && forall b | b in s.buffers :: Live(size, b)
  {
  }

  /** A flush queues what the current buffer holds, if anything, and leaves an empty one. */
  lemma FlushKeeps(size: nat, s: Log)
    requires Inv(size, s)
    ensures Flush(s).Some? && Inv(size, Flush(s).value)
    ensures var s1 := Flush(s).value;
      && s1 == s.(buffers := s1.buffers, current := FRESH)
      && Concat(s1.buffers) == Concat(s.buffers) + s.current.value
      && |s1.buffers| == |s.buffers| + (if s.current == FRESH then 0 else 1)
  {
    ConcatSnoc(s.buffers, s.current);
    hide Concat;
    var s1 := Flush(s).value;
    assert InFlight(s1) == InFlight(s);
    Regroup(s.written + InFlight(s), Concat(s.buffers), s.current.value);
    assert s.appended + "" == s.appended && Concat(s.buffers) + "" == Concat(s.buffers);
  }

  lemma BeginKeeps(size: nat, s: Log)
    requires Inv(size, s) && s.phase.NotStarted?
    ensures Inv(size, Begin(s)) && Begin(s).phase.AtLock?
  {
    hide Concat;
  }

  lemma SwapKeeps(size: nat, s: Log)
    requires Inv(size, s) && (s.phase.AtLock? || s.phase.Waiting?)
    ensures Inv(size, Swap(s))
  {
    SwapConserves(s);
    hide Conserved;
  }

  lemma SwapConserves(s: Log)
    requires Conserved(s) && !s.phase.Writing? && s.toWrite == [] && s.new1 == FRESH
    ensures Conserved(Swap(s))
  {
    ConcatSnoc(s.buffers, s.current);
    assert Concat([]) == "";
    hide Concat;
    var s1 := Swap(s);
    assert s1.toWrite[0..] == s1.toWrite;
    Regroup(s.written, Concat(s.buffers), s.current.value);
    assert s.written + "" == s.written && s.appended + "" + "" == s.appended;
  }

  lemma WriteKeeps(size: nat, s: Log)
    requires Inv(size, s) && s.phase.Writing? && s.phase.done < |s.toWrite|
    ensures WriteOne(s).Some? && Inv(size, WriteOne(s).value)
  {
    WriteStep(size, s);
    assert s.toWrite[s.phase.done] in s.toWrite;
    hide Concat;
  }

  /** Recycling never pops an empty vector, and ends with two empty buffers. */
  lemma RecycleKeeps(size: nat, s: Log)
    requires Inv(size, s) && s.phase.Writing? && s.phase.done == |s.toWrite|
    ensures Recycle(s).Some? && Inv(size, Recycle(s).value)
    ensures Recycle(s).value == s.(new1 := FRESH, new2 := FRESH, toWrite := [], phase := AtLock)
  {
    assert s.toWrite[s.phase.done..] == [] && Concat([]) == "";
    hide Concat;
    var n := |s.toWrite|;
    assert s.toWrite[0] in s.toWrite && (n > 1 ==> s.toWrite[1] in s.toWrite);
    assert s.written + "" == s.written;
  }

  lemma WriteIs(size: nat, s: Log)
    requires Inv(size, s) && s.phase.Writing? && s.phase.done < |s.toWrite|
    ensures var b := s.toWrite[s.phase.done];
      b.Some? && WriteOne(s) == Some(s.(written := s.written + b.value, phase := Writing(s.phase.done + 1)))
  {
    assert s.toWrite[s.phase.done] in s.toWrite;
  }

  /** Writing a buffer moves it from what is left to write to what is written. */
  lemma WriteStep(size: nat, s: Log)
    requires Inv(size, s) && s.phase.Writing? && s.phase.done < |s.toWrite|
    ensures WriteOne(s).Some?
    ensures var s1 := WriteOne(s).value;
      && s1 == s.(written := s1.written, phase := Writing(s.phase.done + 1))
      && s1.written + InFlight(s1) == s.written + InFlight(s)
  {
    var rest := s.toWrite[s.phase.done..];
    assert rest[0] == s.toWrite[s.phase.done] && rest[0] in s.toWrite;
    assert rest[1..] == s.toWrite[s.phase.done + 1..];
    assert Concat(rest) == rest[0].value + Concat(rest[1..]);
    hide Concat;
    Regroup(s.written, rest[0].value, Concat(rest[1..]));
  }

  lemma AllWritten(s: Log)
    requires s.phase == Writing(|s.toWrite|)
    ensures InFlight(s) == "" && s.written + InFlight(s) == s.written
  {
  }

  lemma StartKeeps(size: nat)
    requires size > 0
    ensures Inv(size, START)
  {
  }

  lemma StepKeeps(size: nat, s: Log, step: Step)
    requires Inv(size, s) && CanDo(size, s, step)
    ensures Do(size, s, step).Some? && Inv(size, Do(size, s, step).value)
  {
    match step
    case AppendMsg(msg) => AppendKeeps(size, s, msg);
    case FlushAll => FlushKeeps(size, s);
    case Launch => BeginKeeps(size, s);
    case Enter => if s.buffers != [] { SwapKeeps(size, s); }
    case Wake => SwapKeeps(size, s);
    case Write => WriteKeeps(size, s);
    case TakeTwoBack => RecycleKeeps(size, s);
  }

  /** No run dereferences a null buffer, pops an empty vector or loses a byte. */
  lemma {:induction false} EveryRun(size: nat, steps: seq<Step>)
    requires size > 0
    ensures !Run(size, START, steps).Undefined?
    ensures Run(size, START, steps).Reached? ==> Inv(size, Run(size, START, steps).s)
  {
    hide Do, CanDo;
    if steps == [] {
    } else {
      var n := |steps| - 1;
      EveryRun(size, steps[..n]);
      var before := Run(size, START, steps[..n]);
      if before.Reached? && CanDo(size, before.s, steps[n]) {
        StepKeeps(size, before.s, steps[n]);
      }
    }
  }

  /** What `append` was given, in order. */
  function Messages(steps: seq<Step>): string {
    if steps == [] then ""
    else
      var last := steps[|steps| - 1];
      Messages(steps[..|steps| - 1]) + (if last.AppendMsg? then last.msg else "")
  }

  lemma {:induction false} AppendedIsMessages(size: nat, steps: seq<Step>)
    requires size > 0 && Run(size, START, steps).Reached?
    ensures Run(size, START, steps).s.appended == Messages(steps)
  {
    if steps == [] {
    } else {
      AppendedIsMessages(size, steps[..|steps| - 1]);
    }
  }

  lemma Prefix(a: string, b: string, c: string, d: string)
    ensures a <= a + b + c + d
  {
  }

  /** The file always holds a prefix of the messages, in the order of the calls to `append`. */
  lemma OutputIsPrefix(size: nat, steps: seq<Step>)
    requires size > 0 && Run(size, START, steps).Reached?
    ensures Run(size, START, steps).s.written <= Messages(steps)
  {
    EveryRun(size, steps);
    AppendedIsMessages(size, steps);
    var s := Run(size, START, steps).s;
    hide Run, Messages, Concat, Recyclable, InFlight;
    Prefix(s.written, InFlight(s), Concat(s.buffers), s.current.value);
  }

  /** An iteration of the backend with nobody appending: swap, write everything, recycle. */
  function WriteAll(s: Log): Option<Log>
    requires s.phase.Writing? && s.phase.done <= |s.toWrite|
    decreases |s.toWrite| - s.phase.done
  {
    if s.phase.done == |s.toWrite| then Recycle(s)
    else match WriteOne(s)
      case None => None
      case Some(s1) => WriteAll(s1)
  }

  lemma {:induction false} WriteAllGives(size: nat, s: Log)
    requires Inv(size, s) && s.phase.Writing?
    ensures WriteAll(s) == Some(s.(written := s.written + InFlight(s), new1 := FRESH, new2 := FRESH,
                                   toWrite := [], phase := AtLock))
    decreases |s.toWrite| - s.phase.done
  {
    if s.phase.done == |s.toWrite| {
      RecycleKeeps(size, s);
      assert s.written + "" == s.written;
    } else {
      WriteKeeps(size, s);
      var s1 := WriteOne(s).value;
      WriteAllGives(size, s1);
      assert s.appended == s1.appended && s.buffers == s1.buffers;
      SameRest(s.written + InFlight(s), s1.written + InFlight(s1), Concat(s.buffers), s.current.value);
    }
  }

  lemma SameRest(a: string, b: string, c: string, d: string)
    requires a + c + d == b + c + d
    ensures a == b
  {
    assert |a| == |b|;
    assert (a + c + d)[..|a|] == a && (b + c + d)[..|b|] == b;
  }

  /** One undisturbed iteration writes everything appended so far, and empties the queue. */
  lemma IterationDrains(size: nat, s: Log)
    requires Inv(size, s) && (s.phase.AtLock? || s.phase.Waiting?)
    ensures WriteAll(Swap(s)).Some?
    ensures var s1 := WriteAll(Swap(s)).value;
      s1.written == s.appended == s1.appended && s1.buffers == [] && s1.current == FRESH && s1.phase.AtLock?
  {
    SwapKeeps(size, s);
    WriteAllGives(size, Swap(s));
    assert Concat([]) == "";
  }

  // A flush reaches the file

  /** The backend waits exactly when nothing is queued, and otherwise goes on to write. */
  lemma EnterExactly(size: nat, s: Log)
    requires Inv(size, s) && s.phase.AtLock?
    ensures Do(size, s, Enter) == Some(if s.buffers == [] then s.(phase := Waiting) else Swap(s))
    ensures Do(size, s, Enter).value.phase.Waiting? <==> s.buffers == []
    ensures Do(size, s, Enter).value.phase == Writing(0) <==> s.buffers != []
  {
  }

  /** The backend does not come to its critical section. */
  predicate NoSwap(steps: seq<Step>) { forall i | 0 <= i < |steps| :: !steps[i].Enter? && !steps[i].Wake? }

  lemma StaysQueued(size: nat, s: Log, step: Step)
    requires Inv(size, s) && CanDo(size, s, step) && !step.Enter? && !step.Wake? && s.buffers != []
    ensures Do(size, s, step).Some?
    ensures Do(size, s, step).value.buffers != [] && s.appended <= Do(size, s, step).value.appended
  {
    StepKeeps(size, s, step);
  }

  lemma {:induction false} QueuedWaits(size: nat, s: Log, steps: seq<Step>)
    requires Inv(size, s) && s.buffers != [] && NoSwap(steps) && Run(size, s, steps).Reached?
    ensures var s1 := Run(size, s, steps).s; Inv(size, s1) && s1.buffers != [] && s.appended <= s1.appended
    decreases |steps|
  {
    hide Do, CanDo, Inv;
    if steps == [] {
    } else {
      var n := |steps| - 1;
      QueuedWaits(size, s, steps[..n]);
      var s1 := Run(size, s, steps[..n]).s;
      StepKeeps(size, s1, steps[n]);
      StaysQueued(size, s1, steps[n]);
    }
  }

  /** After a flush of a log with anything in its current buffer, whatever happens until the backend next comes to its
      critical section, it goes straight to writing there, and that iteration, undisturbed, brings the file up to
      every message appended before the flush. */
  lemma FlushReachesFile(size: nat, s: Log, steps: seq<Step>, swap: Step)
    requires Inv(size, s) && s.current != FRESH && NoSwap(steps)
    requires Flush(s).Some? && Run(size, Flush(s).value, steps).Reached?
    requires (swap.Enter? || swap.Wake?) && CanDo(size, Run(size, Flush(s).value, steps).s, swap)
    ensures var s1 := Run(size, Flush(s).value, steps).s;
      && Do(size, s1, swap).Some? && Do(size, s1, swap).value.phase == Writing(0)
      && WriteAll(Do(size, s1, swap).value).Some?
      && s.appended <= WriteAll(Do(size, s1, swap).value).value.written
  {
    hide Run, WriteAll, Inv;
    FlushKeeps(size, s);
    QueuedWaits(size, Flush(s).value, steps);
    IterationDrains(size, Run(size, Flush(s).value, steps).s);
  }
}
