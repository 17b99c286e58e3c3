/** The asynchronous log on its own buffers (src/log/FixedBuffer.hpp, src/log/AsyncLogFile.cpp): each
    method is one operation of `LogSpec`. */
module AsyncLogs {
  import opened Text
  import opened LogSpec

  class FixedBuffer {
    const data: array<char>
    var cur: nat

    /** There is room for the terminator. */
    predicate Valid()
      reads this
    {
      cur < data.Length
    }

    function Contents(): (s: string)
      reads this, data
      requires Valid()
      ensures |s| == cur
    {
      data[..cur]
    }

    constructor (size: nat)
      requires size > 0
      ensures Valid() && Contents() == "" && data.Length == size && fresh(data)
    {
      data, cur := new char[size], 0;
    }

    function Length(): nat
      reads this
    {
      cur
    }

    function Avail(): int
      reads this
    {
      data.Length - cur
    }

    method Reset()
      modifies this
      ensures cur == 0
    {
      cur := 0;
    }

    /** Appends a message and a terminator, starting over when they do not fit. */
    method Append(msg: string)
      requires Valid() && |msg| < data.Length
      modifies this, data
      ensures Valid() && Contents() == Put(data.Length, old(Contents()), msg)
      ensures data[cur] == '\0'
    {
      if Avail() <= |msg| {
        Reset();
      }
      ghost var before := Contents();
      forall i | 0 <= i < |msg| { data[cur + i] := msg[i]; }
      cur := cur + |msg|;
      data[cur] := '\0';
      assert Contents() == before + msg;
    }
  }

  /** A pointer is null, or to a buffer of `size` bytes in the footprint. */
  ghost predicate Held(size: nat, repr: set<object>, b: FixedBuffer?)
    reads repr
  {
    b != null ==> b in repr && b.data in repr && b.Valid() && b.data.Length == size
  }

  ghost predicate AllHeld(size: nat, repr: set<object>, bs: seq<FixedBuffer?>)
    reads repr
  {
    forall i | 0 <= i < |bs| :: Held(size, repr, bs[i])
  }

  /** Two pointers own neither the same buffer nor the same array. */
  ghost predicate Apart(a: FixedBuffer?, b: FixedBuffer?) {
    a != null && b != null ==> a != b && a.data != b.data
  }

  /** Each buffer, and each array, has one owner. */
  ghost predicate Separate(slots: seq<FixedBuffer?>) {
    forall i, j | 0 <= i < j < |slots| :: Apart(slots[i], slots[j])
  }

  ghost function PtrOf(size: nat, repr: set<object>, b: FixedBuffer?): Ptr
    reads repr
    requires Held(size, repr, b)
  {
    if b == null then None else Some(b.Contents())
  }

  ghost function PtrsOf(size: nat, repr: set<object>, bs: seq<FixedBuffer?>): (r: seq<Ptr>)
    reads repr
    requires AllHeld(size, repr, bs)
    ensures |r| == |bs| && forall i | 0 <= i < |r| :: r[i] == PtrOf(size, repr, bs[i])
  {
    seq(|bs|, i requires 0 <= i < |bs| && AllHeld(size, repr, bs) reads repr => PtrOf(size, repr, bs[i]))
  }

  /** Pointer `i` of `to` is null or was moved from pointer `from[i]` of `slots`. */
  ghost predicate Moved(slots: seq<FixedBuffer?>, to: seq<FixedBuffer?>, from: seq<int>) {
    && |from| == |to|
    && (forall i | 0 <= i < |to| :: to[i] != null ==> 0 <= from[i] < |slots| && to[i] == slots[from[i]])
    && forall i, j | 0 <= i < j < |to| :: to[i] != null && to[j] != null ==> from[i] != from[j]
  }

  /** Moving pointers keeps one owner for each buffer. */
  lemma MoveKeeps(slots: seq<FixedBuffer?>, to: seq<FixedBuffer?>, from: seq<int>)
    requires Separate(slots) && Moved(slots, to, from)
    ensures Separate(to)
  {
    forall i, j | 0 <= i < j < |to| ensures Apart(to[i], to[j]) {
      if to[i] != null && to[j] != null {
        assert from[i] < from[j] || from[j] < from[i];
      }
    }
  }

  lemma PtrsSnoc(size: nat, repr: set<object>, bs: seq<FixedBuffer?>, b: FixedBuffer?)
    requires AllHeld(size, repr, bs) && Held(size, repr, b)
    ensures AllHeld(size, repr, bs + [b])
    ensures PtrsOf(size, repr, bs + [b]) == PtrsOf(size, repr, bs) + [PtrOf(size, repr, b)]
  {
  }

  /** Two buffers for the producers. */
  method TwoBuffers(size: nat) returns (a: FixedBuffer, b: FixedBuffer, ghost repr: set<object>)
    requires size > 0
    ensures fresh(repr) && Separate([a, b, null, null])
    ensures forall o | o in repr :: o is FixedBuffer || o is array<char>
    ensures Held(size, repr, a) && Held(size, repr, b)
    ensures AllHeld(size, repr, []) && PtrsOf(size, repr, []) == []
    ensures PtrOf(size, repr, a) == PtrOf(size, repr, b) == FRESH
  {
    a := new FixedBuffer(size);
    b := new FixedBuffer(size);
    repr := {a, a.data, b, b.data};
  }

  class AsyncLogFile {
    const size: nat
    var current: FixedBuffer?
    var next: FixedBuffer?
    var buffers: seq<FixedBuffer?>
    var newBuffer1: FixedBuffer?
    var newBuffer2: FixedBuffer?
    var buffersToWrite: seq<FixedBuffer?>
    var file: string
    /** Where the backend thread is, everything appended, and the footprint. */
    ghost var phase: Phase
    ghost var appended: string
    ghost var repr: set<object>

    ghost function Slots(): seq<FixedBuffer?>
      reads this
    {
      [current, next, newBuffer1, newBuffer2] + buffers + buffersToWrite
    }

    ghost predicate Shape()
      reads this, repr
    {
      && size > 0 && this !in repr && Separate(Slots())
      && Held(size, repr, current) && Held(size, repr, next)
      && Held(size, repr, newBuffer1) && Held(size, repr, newBuffer2)
      && AllHeld(size, repr, buffers) && AllHeld(size, repr, buffersToWrite)
    }

    ghost function View(): (v: Log)
      reads this, repr
      requires Shape()
      ensures v.phase == phase && |v.toWrite| == |buffersToWrite|
    {
      Log(PtrOf(size, repr, current), PtrOf(size, repr, next), PtrsOf(size, repr, buffers),
          PtrOf(size, repr, newBuffer1), PtrOf(size, repr, newBuffer2), PtrsOf(size, repr, buffersToWrite),
          phase, file, appended)
    }

    ghost predicate Valid()
      reads this, repr
    {
      Shape() && Inv(size, View())
    }

    constructor (size: nat)
      requires size > 0
      ensures Valid() && this.size == size && View() == START && fresh(repr)
    {
      StartKeeps(size);
      hide Inv, Separate, Held, AllHeld, PtrsOf;
      var a, b, owned := TwoBuffers(size);
      this.size := size;
      current, next, newBuffer1, newBuffer2 := a, b, null, null;
      buffers, buffersToWrite, file := [], [], "";
      phase, appended, repr := NotStarted, "", owned;
      new;
      assert Slots() == [a, b, null, null];
      assert Shape();
      assert View() == START;
    }

    /** The backend thread starts: it makes its own two buffers. */
    method Begin()
      requires Valid() && phase.NotStarted?
      modifies this`newBuffer1, this`newBuffer2, this`phase, this`repr
      ensures Valid() && fresh(repr - old(repr)) && View() == LogSpec.Begin(old(View()))
    {
      BeginKeeps(size, View());
      hide Inv, View, Shape;
      NothingOfItsOwn();
      MakeFirst();
      MakeSecond();
    }

    lemma NothingOfItsOwn()
      requires Valid() && phase.NotStarted?
      ensures newBuffer1 == null && newBuffer2 == null
    {
    }

    method MakeFirst()
      requires Shape() && newBuffer1 == null
      modifies this`newBuffer1, this`repr
      ensures Shape() && fresh(repr - old(repr)) && View() == old(View()).(new1 := FRESH)
    {
      ghost var slots := Slots();
      SlotsIn();
      var b := new FixedBuffer(size);
      PlaceKeeps(slots, 2, b, repr);
      hide Separate;
      repr := repr + {b, b.data};
      newBuffer1 := b;
      assert Slots() == slots[2 := b];
      assert PtrsOf(size, repr, buffers) == old(PtrsOf(size, repr, buffers));
      assert PtrsOf(size, repr, buffersToWrite) == old(PtrsOf(size, repr, buffersToWrite));
    }

    method MakeSecond()
      requires Shape() && newBuffer2 == null
      modifies this`newBuffer2, this`phase, this`repr
      ensures Shape() && fresh(repr - old(repr)) && View() == old(View()).(new2 := FRESH, phase := AtLock)
    {
      ghost var slots := Slots();
      SlotsIn();
      var b := new FixedBuffer(size);
      PlaceKeeps(slots, 3, b, repr);
      hide Separate;
      repr := repr + {b, b.data};
      newBuffer2 := b;
      phase := AtLock;
      assert Slots() == slots[3 := b];
      assert PtrsOf(size, repr, buffers) == old(PtrsOf(size, repr, buffers));
      assert PtrsOf(size, repr, buffersToWrite) == old(PtrsOf(size, repr, buffersToWrite));
    }

    /** Appends to the current buffer. */
    method Deposit(msg: string)
      requires Shape() && current != null && |msg| < size
      modifies repr
      ensures Shape()
      ensures View() == old(View()).(current := Some(Put(size, old(View()).current.value, msg)))
    {
      FirstApart([current, next, newBuffer1, newBuffer2], buffers, buffersToWrite);
      hide Separate;
      current.Append(msg);
      assert PtrsOf(size, repr, buffers) == old(PtrsOf(size, repr, buffers));
      assert PtrsOf(size, repr, buffersToWrite) == old(PtrsOf(size, repr, buffersToWrite));
    }

    /** Moves the current buffer to the end of the queue. */
    method PushCurrent()
      requires Shape()
      modifies this`current, this`buffers
      ensures Shape() && current == null
      ensures View() == old(View()).(current := None, buffers := old(View()).buffers + [old(View()).current])
    {
      QueueMoved([current, next, newBuffer1, newBuffer2], buffers, buffersToWrite);
      PtrsSnoc(size, repr, buffers, current);
      hide Separate, Held, AllHeld, PtrOf, PtrsOf;
      ghost var head, queue := [current, next, newBuffer1, newBuffer2], buffers;
      buffers := buffers + [current];
      current := null;
      assert Slots() == [null] + head[1..] + (queue + [head[0]]) + buffersToWrite;
    }

    /** Makes the spare buffer current. */
    method TakeNext()
      requires Shape() && current == null
      modifies this`current, this`next
      ensures Shape() && View() == old(View()).(current := old(View()).next, next := None)
      ensures current == old(next)
    {
      MoveOne(Slots(), 1, 0);
      ghost var to := Slots()[0 := next][1 := null];
      hide Separate, Held, AllHeld, PtrsOf;
      current, next := next, null;
      assert Slots() == to;
    }

    /** Makes a new buffer current. */
    method AllocateCurrent()
      requires Shape() && current == null
      modifies this`current, this`repr
      ensures Shape() && fresh(repr - old(repr)) && current != null && fresh(current) && fresh(current.data)
      ensures View() == old(View()).(current := FRESH)
    {
      ghost var slots := Slots();
      SlotsIn();
      var b := new FixedBuffer(size);
      PlaceKeeps(slots, 0, b, repr);
      hide Separate;
      repr := repr + {b, b.data};
      current := b;
      assert Slots() == slots[0 := b];
      assert PtrsOf(size, repr, buffers) == old(PtrsOf(size, repr, buffers));
      assert PtrsOf(size, repr, buffersToWrite) == old(PtrsOf(size, repr, buffersToWrite));
    }

    lemma SlotsIn()
      requires Shape()
      ensures forall s: FixedBuffer | s in Slots() :: s in repr && s.data in repr
    {
    }

    /** Queues the current buffer and takes the spare one, or a new one. */
    method Rotate()
      requires Shape()
      modifies this`current, this`next, this`buffers, this`repr
      ensures Shape() && fresh(repr - old(repr)) && current != null
      ensures var v := old(View());
        View() == v.(buffers := v.buffers + [v.current], current := Spare(v.next), next := None)
    {
      hide Separate, Held, AllHeld, PtrsOf;
      PushCurrent();
      if next != null {
        TakeNext();
      } else {
        AllocateCurrent();
      }
    }

    /** `append`. */
    method Append(msg: string)
      requires Valid() && |msg| < size
      modifies this, repr
      ensures Valid() && fresh(repr - old(repr))
      ensures Some(View()) == LogSpec.Append(size, old(View()), msg)
    {
      AppendKeeps(size, View(), msg);
      AppendCases(size, View(), msg);
      hide Separate, Held, AllHeld, PtrsOf, PtrOf, Inv, Put, View, Shape, Spare, LogSpec.Append;
      if current.Avail() > |msg| {
        Deposit(msg);
      } else {
        Rotate();
        Deposit(msg);
      }
      Count(msg);
    }

    ghost method Count(msg: string)
      requires Shape()
      modifies this`appended
      ensures Shape() && View() == old(View()).(appended := old(View()).appended + msg)
    {
      hide Separate, Held, AllHeld, PtrsOf, PtrOf;
      appended := appended + msg;
    }

    /** `flush`. */
    method Flush()
      requires Valid()
      modifies this, repr
      ensures Valid() && fresh(repr - old(repr))
      ensures Some(View()) == LogSpec.Flush(old(View()))
    {
      FlushKeeps(size, View());
      hide Separate, Held, AllHeld, PtrsOf, PtrOf, Inv, View, Shape;
      if LengthOfCurrent() > 0 {
        PushCurrent();
        AllocateCurrent();
      }
    }

    function LengthOfCurrent(): (n: nat)
      reads this, repr
      requires Valid()
      ensures View().current.Some? && n == |View().current.value|
    {
      current.Length()
    }

    /** The critical section of the backend, after any wait. */
    method Swap()
      requires Valid() && (phase.AtLock? || phase.Waiting?)
      modifies this
      ensures Valid() && View() == LogSpec.Swap(old(View())) && repr == old(repr)
    {
      hide Inv, View, Shape, LogSpec.Swap, Slots;
      SwapKeeps(size, View());
      SwapAll();
    }

    method SwapAll()
      requires Shape()
      modifies this`current, this`next, this`newBuffer1, this`newBuffer2, this`buffers, this`buffersToWrite,
               this`phase
      ensures Shape() && View() == LogSpec.Swap(old(View()))
    {
      hide View, Shape, Slots, PtrOf, PtrsOf;
      PushCurrent();
      TakeNew();
      SwapVectors();
      FillNext();
    }

    /** The first buffer of the backend becomes current. */
    method TakeNew()
      requires Shape() && current == null
      modifies this`current, this`newBuffer1
      ensures Shape() && View() == old(View()).(current := old(View()).new1, new1 := None)
    {
      MoveOne(Slots(), 2, 0);
      ghost var to := Slots()[0 := newBuffer1][2 := null];
      hide Separate, Held, AllHeld, PtrsOf;
      current, newBuffer1 := newBuffer1, null;
      assert Slots() == to;
    }

    /** The queue becomes the vector to write, and the backend enters its writing phase. */
    method SwapVectors()
      requires Shape()
      modifies this`buffers, this`buffersToWrite, this`phase
      ensures Shape()
      ensures var v := old(View());
        View() == v.(buffers := v.toWrite, toWrite := v.buffers, phase := Writing(0))
    {
      VectorsSwap([current, next, newBuffer1, newBuffer2], buffers, buffersToWrite);
      ghost var to := [current, next, newBuffer1, newBuffer2] + buffersToWrite + buffers;
      hide Separate, Held, AllHeld, PtrsOf;
      buffersToWrite, buffers := buffers, buffersToWrite;
      phase := Writing(0);
      assert Slots() == to;
    }

    /** Hands out the second buffer if there is no spare one. */
    method FillNext()
      requires Shape()
      modifies this`next, this`newBuffer2
      ensures Shape()
      ensures var v := old(View());
        View() == v.(next := if v.next.None? then v.new2 else v.next, new2 := if v.next.None? then None else v.new2)
    {
      MoveOne(Slots(), 3, 1);
      hide Separate, Held, AllHeld, PtrsOf;
      if next == null {
        ghost var to := Slots()[1 := newBuffer2][3 := null];
        next, newBuffer2 := newBuffer2, null;
        assert Slots() == to;
      }
    }

    /** Writes one buffer to the file. */
    method WriteOne(i: nat)
      requires Valid() && phase == Writing(i) && i < |View().toWrite|
      modifies this`file, this`phase
      ensures Valid() && phase == Writing(i + 1)
      ensures Some(View()) == LogSpec.WriteOne(old(View()))
    {
      hide Inv, View, Shape, LogSpec.WriteOne, Slots;
      WriteKeeps(size, View());
      WriteIs(size, View());
      Emit(i);
    }

    method Emit(i: nat)
      requires Shape() && phase == Writing(i) && i < |View().toWrite| && View().toWrite[i].Some?
      modifies this`file, this`phase
      ensures Shape() && phase == Writing(i + 1)
      ensures var v := old(View()); View() == v.(written := v.written + v.toWrite[i].value, phase := phase)
    {
      hide Separate;
      file := file + buffersToWrite[i].Contents();
      phase := Writing(i + 1);
    }

    /** Writes all the buffers taken. */
    method WriteOut()
      requires Valid() && phase == Writing(0)
      modifies this`file, this`phase
      ensures Valid() && phase == Writing(|buffersToWrite|)
      ensures View() == old(View()).(written := old(View()).written + InFlight(old(View())), phase := phase)
    {
      hide Separate, Held, AllHeld, PtrsOf, Inv, InFlight, LogSpec.WriteOne;
      var i := 0;
      while i < |buffersToWrite|
        invariant 0 <= i <= |buffersToWrite|
        invariant Valid() && phase == Writing(i)
        invariant View() == old(View()).(written := file, phase := phase)
        invariant file + InFlight(View()) == old(file + InFlight(View()))
      {
        WriteStep(size, View());
        WriteOne(i);
        i := i + 1;
      }
      AllWritten(View());
    }

    /** Keeps the first `n` written buffers. */
    method Resize(n: nat)
      requires Shape() && n <= |buffersToWrite|
      modifies this`buffersToWrite
      ensures Shape() && View() == old(View()).(toWrite := old(View()).toWrite[..n])
      ensures buffersToWrite == old(buffersToWrite)[..n]
    {
      ghost var slots, m := Slots(), 4 + |buffers| + n;
      assert slots[..m] == [current, next, newBuffer1, newBuffer2] + buffers + buffersToWrite[..n];
      MoveKeeps(slots, slots[..m], seq(m, i => i));
      hide Separate, Held;
      buffersToWrite := buffersToWrite[..n];
      assert Slots() == slots[..m];
    }

    /** Pops the last written buffer and resets it. */
    method TakeBack() returns (b: FixedBuffer)
      requires Shape() && buffersToWrite != [] && buffersToWrite[|buffersToWrite| - 1] != null
      modifies this`buffersToWrite, repr
      ensures Shape() && buffersToWrite == old(buffersToWrite)[..|old(buffersToWrite)| - 1]
      ensures View() == old(View()).(toWrite := old(View()).toWrite[..|old(buffersToWrite)| - 1])
      ensures Held(size, repr, b) && PtrOf(size, repr, b) == FRESH && Separate(Slots() + [b])
    {
      var n := |buffersToWrite| - 1;
      b := buffersToWrite[n];
      ghost var slots := Slots();
      Resize(n);
      assert Slots() + [b] == slots;
      LastApart([current, next, newBuffer1, newBuffer2], buffers, buffersToWrite, b);
      hide Separate;
      b.Reset();
      assert PtrsOf(size, repr, buffers) == old(PtrsOf(size, repr, buffers));
      assert PtrsOf(size, repr, buffersToWrite) == old(PtrsOf(size, repr, buffersToWrite))[..n];
    }

    /** The first buffer of the backend is a written one, emptied. */
    method RefillFirst()
      requires Shape() && newBuffer1 == null
      requires buffersToWrite != [] && buffersToWrite[|buffersToWrite| - 1] != null
      modifies this`buffersToWrite, this`newBuffer1, repr
      ensures Shape() && buffersToWrite == old(buffersToWrite)[..|old(buffersToWrite)| - 1]
      ensures View() == old(View()).(new1 := FRESH, toWrite := old(View()).toWrite[..|old(buffersToWrite)| - 1])
    {
      hide Separate, Held, AllHeld, PtrsOf;
      var b := TakeBack();
      PutAt(Slots(), 2, b);
      ghost var to := Slots()[2 := b];
      newBuffer1 := b;
      assert Slots() == to;
    }

    /** And so is the second. */
    method RefillSecond()
      requires Shape() && newBuffer2 == null
      requires buffersToWrite != [] && buffersToWrite[|buffersToWrite| - 1] != null
      modifies this`buffersToWrite, this`newBuffer2, repr
      ensures Shape() && buffersToWrite == old(buffersToWrite)[..|old(buffersToWrite)| - 1]
      ensures View() == old(View()).(new2 := FRESH, toWrite := old(View()).toWrite[..|old(buffersToWrite)| - 1])
    {
      hide Separate, Held, AllHeld, PtrsOf;
      var b := TakeBack();
      PutAt(Slots(), 3, b);
      ghost var to := Slots()[3 := b];
      newBuffer2 := b;
      assert Slots() == to;
    }

    /** Takes back as many written buffers as were handed out. */
    method Recycle()
      requires Valid() && phase == Writing(|buffersToWrite|)
      modifies this, repr
      ensures Valid() && Some(View()) == LogSpec.Recycle(old(View())) && repr == old(repr)
    {
      hide View, Shape, Inv, LogSpec.Recycle, Slots;
      Stocked();
      RecycleKeeps(size, View());
      if |buffersToWrite| > 2 {
        Resize(2);
      }
      Refill();
      Clear();
    }

    method Refill()
      requires Shape() && newBuffer1 == null && View().new2 == if newBuffer2 == null then None else FRESH
      requires |buffersToWrite| >= (if newBuffer2 == null then 2 else 1) && null !in buffersToWrite
      modifies this`buffersToWrite, this`newBuffer1, this`newBuffer2, repr
      ensures Shape() && View() == old(View()).(new1 := FRESH, new2 := FRESH, toWrite := View().toWrite)
    {
      hide View, Held, AllHeld, Separate;
      if newBuffer1 == null {
        RefillFirst();
      }
      if newBuffer2 == null {
        RefillSecond();
      }
    }

    /** The backend holds as many buffers as it must take back. */
    lemma Stocked()
      requires Valid() && phase == Writing(|buffersToWrite|)
      ensures newBuffer1 == null && |buffersToWrite| >= if newBuffer2 == null then 2 else 1
      ensures View().new2 == if newBuffer2 == null then None else FRESH
      ensures null !in buffersToWrite && this !in repr
    {
      forall i | 0 <= i < |buffersToWrite| ensures buffersToWrite[i] != null {
        assert View().toWrite[i] in View().toWrite;
      }
    }

    method Clear()
      requires Shape()
      modifies this`buffersToWrite, this`phase
      ensures Shape() && View() == old(View()).(toWrite := [], phase := AtLock)
    {
      Resize(0);
      hide Separate, Held, AllHeld, PtrsOf;
      phase := AtLock;
    }
  }

  /** The first pointer owns nothing that another one does. */
  lemma FirstApart(head: seq<FixedBuffer?>, queue: seq<FixedBuffer?>, rest: seq<FixedBuffer?>)
    requires |head| == 4 && Separate(head + queue + rest)
    ensures Apart(head[1], head[0]) && Apart(head[2], head[0]) && Apart(head[3], head[0])
    ensures forall i | 0 <= i < |queue| :: Apart(queue[i], head[0])
    ensures forall i | 0 <= i < |rest| :: Apart(rest[i], head[0])
  {
    var slots := head + queue + rest;
    assert Apart(slots[0], slots[1]) && Apart(slots[0], slots[2]) && Apart(slots[0], slots[3]);
    forall i | 0 <= i < |queue| ensures Apart(queue[i], head[0]) {
      assert Apart(slots[0], slots[4 + i]);
    }
    forall i | 0 <= i < |rest| ensures Apart(rest[i], head[0]) {
      assert Apart(slots[0], slots[4 + |queue| + i]);
    }
  }

  /** A new buffer takes the place of a pointer. */
  lemma PlaceKeeps(slots: seq<FixedBuffer?>, k: nat, b: FixedBuffer, repr: set<object>)
    requires Separate(slots) && k < |slots| && b !in repr && b.data !in repr
    requires forall s: FixedBuffer | s in slots :: s in repr && s.data in repr
    ensures Separate(slots[k := b])
  {
    forall i | 0 <= i < |slots| ensures Apart(b, slots[i]) {
      assert slots[i] in slots;
    }
  }

  lemma MoveOne(slots: seq<FixedBuffer?>, i: nat, j: nat)
    requires Separate(slots) && i < |slots| && j < |slots| && i != j
    ensures Separate(slots[j := slots[i]][i := null])
  {
    MoveKeeps(slots, slots[j := slots[i]][i := null], seq(|slots|, k => if k == j then i else k));
  }

  lemma VectorsSwap(head: seq<FixedBuffer?>, queue: seq<FixedBuffer?>, rest: seq<FixedBuffer?>)
    requires Separate(head + queue + rest)
    ensures Separate(head + rest + queue)
  {
    var h, n, m := |head|, |queue|, |rest|;
    MoveKeeps(head + queue + rest, head + rest + queue,
              seq(h + n + m, i => if i < h then i else if i < h + m then i + n else i - m));
  }

  /** The last pointer owns nothing that another one does. */
  lemma LastApart(head: seq<FixedBuffer?>, queue: seq<FixedBuffer?>, rest: seq<FixedBuffer?>, b: FixedBuffer?)
    requires |head| == 4 && Separate(head + queue + rest + [b])
    ensures Apart(head[0], b) && Apart(head[1], b) && Apart(head[2], b) && Apart(head[3], b)
    ensures forall i | 0 <= i < |queue| :: Apart(queue[i], b)
    ensures forall i | 0 <= i < |rest| :: Apart(rest[i], b)
  {
    var slots := head + queue + rest + [b];
    var n := |slots| - 1;
    assert Apart(slots[0], slots[n]) && Apart(slots[1], slots[n]);
    assert Apart(slots[2], slots[n]) && Apart(slots[3], slots[n]);
    forall i | 0 <= i < |queue| ensures Apart(queue[i], b) {
      assert Apart(slots[4 + i], slots[n]);
    }
    forall i | 0 <= i < |rest| ensures Apart(rest[i], b) {
      assert Apart(slots[4 + |queue| + i], slots[n]);
    }
  }

  lemma PutAt(slots: seq<FixedBuffer?>, k: nat, b: FixedBuffer?)
    requires Separate(slots + [b]) && k < |slots|
    ensures Separate(slots[k := b])
  {
    MoveKeeps(slots + [b], slots[k := b], seq(|slots|, i => if i == k then |slots| else i));
  }

  lemma QueueMoved(head: seq<FixedBuffer?>, queue: seq<FixedBuffer?>, rest: seq<FixedBuffer?>)
    requires |head| == 4 && Separate(head + queue + rest)
    ensures Separate([null] + head[1..] + (queue + [head[0]]) + rest)
  {
    var slots, to, n := head + queue + rest, [null] + head[1..] + (queue + [head[0]]) + rest, 4 + |queue|;
    MoveKeeps(slots, to, seq(|to|, i => if i < n then i else if i == n then 0 else i - 1));
  }
}
