/** Channels and the epoll interest table (src/net/Channel.cpp, src/net/poller/EpollPoller.cpp). */
module ChannelSpec {
  import opened Text

  /** An interest mask.  It only ever changes by setting and clearing the read mask (EPOLLIN and
      EPOLLPRI together) and the write mask (EPOLLOUT), so two flags determine it. */
  datatype Events = Events(reading: bool, writing: bool)

  const NONE_EVENT: Events := Events(false, false)

  /** The events a poll reports for a channel. */
  datatype Revents = Revents(epollin: bool, pri: bool, out: bool, err: bool, hup: bool)

  datatype Index = New | Added | Deleted

  /** A channel as the poller sees it. */
  datatype Chan = Chan(events: Events, index: Index) {
    predicate IsWriting() { events.writing }

    predicate IsReading() { events.reading }

    /** The entry the kernel should hold for this channel. */
    function Interest(): Option<Events> {
      if index == Added then Some(events) else None
    }
  }

  const FRESH_CHAN: Chan := Chan(NONE_EVENT, New)

  /** `updateChannel`: a channel the kernel does not know is added, whatever its events; a known
      one is modified, or deleted when it has no events left. */
  function Updated(c: Chan): Chan {
    match c.index
    case Added => if c.events == NONE_EVENT then c.(index := Deleted) else c
    case New => c.(index := Added)
    case Deleted => c.(index := Added)
  }

  function EnableReading(c: Chan): Chan { Updated(c.(events := c.events.(reading := true))) }

  function DisableReading(c: Chan): Chan { Updated(c.(events := c.events.(reading := false))) }

  function EnableWriting(c: Chan): Chan { Updated(c.(events := c.events.(writing := true))) }

  function DisableWriting(c: Chan): Chan { Updated(c.(events := c.events.(writing := false))) }

  function DisableAll(c: Chan): Chan { Updated(c.(events := NONE_EVENT)) }

  function Removed(c: Chan): Chan { c.(index := New) }

  // Whole runs over many channels

  datatype Ctl = CtlAdd(fd: int, events: Events) | CtlMod(fd: int, events: Events) | CtlDel(fd: int)

  /** The kernel's answer to an `epoll_ctl`; `None` is an error return. */
  function KernelCtl(kernel: map<int, Events>, ctl: Ctl): Option<map<int, Events>> {
    match ctl
    case CtlAdd(fd, ev) => if fd in kernel then None else Some(kernel[fd := ev])
    case CtlMod(fd, ev) => if fd in kernel then Some(kernel[fd := ev]) else None
    case CtlDel(fd) => if fd in kernel then Some(kernel - {fd}) else None
  }

  function KernelRun(kernel: map<int, Events>, ctls: seq<Ctl>): Option<map<int, Events>> {
    if ctls == [] then Some(kernel)
    else
      match KernelRun(kernel, ctls[..|ctls| - 1])
      case None => None
      case Some(k) => KernelCtl(k, ctls[|ctls| - 1])
  }

  /** The channels of one poller, its `_channels` and the `epoll_ctl` calls it has made. */
  datatype Table = Table(chans: map<int, Chan>, registered: set<int>, ctls: seq<Ctl>)

  datatype PollOp = Create(fd: int) | SetEvents(fd: int, events: Events) | Remove(fd: int) | Discard(fd: int)

  function UpdateCtl(fd: int, c: Chan): Ctl {
    if c.index != Added then CtlAdd(fd, c.events)
    else if c.events == NONE_EVENT then CtlDel(fd)
    else CtlMod(fd, c.events)
  }

  /** A channel is created for a descriptor no live channel has, and destroyed only after
      `removeChannel`. */
  predicate Allowed(t: Table, op: PollOp) {
    match op
    case Create(fd) => fd !in t.chans
    case SetEvents(fd, _) => fd in t.chans
    case Remove(fd) => fd in t.chans
    case Discard(fd) => fd in t.chans && t.chans[fd].index == New
  }

  function PollStep(t: Table, op: PollOp): Table
    requires Allowed(t, op)
  {
    match op
    case Create(fd) => t.(chans := t.chans[fd := FRESH_CHAN])
    case SetEvents(fd, ev) =>
      var c := t.chans[fd].(events := ev);
      Table(t.chans[fd := Updated(c)],
            if c.index == New then t.registered + {fd} else t.registered,
            t.ctls + [UpdateCtl(fd, c)])
    case Remove(fd) =>
      var c := t.chans[fd];
      Table(t.chans[fd := Removed(c)], t.registered - {fd},
            if c.index == Added then t.ctls + [CtlDel(fd)] else t.ctls)
    case Discard(fd) => t.(chans := t.chans - {fd})
  }

  /** The table after a run of operations, if each of them is allowed when it happens. */
  function PollRun(t: Table, ops: seq<PollOp>): Option<Table> {
    if ops == [] then Some(t)
    else
      match PollRun(t, ops[..|ops| - 1])
      case None => None
      case Some(t1) => if Allowed(t1, ops[|ops| - 1]) then Some(PollStep(t1, ops[|ops| - 1])) else None
  }

  const EMPTY_TABLE: Table := Table(map[], {}, [])

  /** What the kernel should hold for a table of channels. */
  function Wanted(chans: map<int, Chan>): map<int, Events> {
    map fd | fd in chans && chans[fd].index == Added :: chans[fd].events
  }

  /** Every `epoll_ctl` so far has succeeded, the kernel holds exactly the events of the added
      channels, and `_channels` exactly the added and deleted ones. */
  ghost predicate Coherent(t: Table) {
    && KernelRun(map[], t.ctls) == Some(Wanted(t.chans))
    && forall fd :: fd in t.registered <==> fd in t.chans && t.chans[fd].index != New
  }

  lemma KernelRunSnoc(kernel: map<int, Events>, ctls: seq<Ctl>, ctl: Ctl)
    ensures KernelRun(kernel, ctls + [ctl])
         == match KernelRun(kernel, ctls) case None => None case Some(k) => KernelCtl(k, ctl)
  {
    assert (ctls + [ctl])[..|ctls|] == ctls;
  }

  lemma PollStepCoherent(t: Table, op: PollOp)
    requires Coherent(t) && Allowed(t, op)
    ensures Coherent(PollStep(t, op))
  {
    match op
    case Create(fd) => assert Wanted(PollStep(t, op).chans) == Wanted(t.chans);
    case Discard(fd) => assert Wanted(PollStep(t, op).chans) == Wanted(t.chans);
    case SetEvents(fd, ev) => SetEventsCoherent(t, fd, ev);
    case Remove(fd) => RemoveCoherent(t, fd);
  }

  lemma SetEventsCoherent(t: Table, fd: int, ev: Events)
    requires Coherent(t) && fd in t.chans
    ensures Coherent(PollStep(t, SetEvents(fd, ev)))
  {
    hide Wanted, KernelRun;
    var c := t.chans[fd].(events := ev);
    KernelRunSnoc(map[], t.ctls, UpdateCtl(fd, c));
    WantedAfter(t.chans, fd, c);
  }

  /** What should be in the kernel after an update is what its `epoll_ctl` puts there. */
  lemma WantedAfter(chans: map<int, Chan>, fd: int, c: Chan)
    requires fd in chans && c.index == chans[fd].index
    ensures KernelCtl(Wanted(chans), UpdateCtl(fd, c)) == Some(Wanted(chans[fd := Updated(c)]))
  {
    var k := Wanted(chans);
    assert Wanted(chans[fd := Updated(c)]) == if Updated(c).index == Added then k[fd := c.events] else k - {fd};
  }

  lemma RemoveCoherent(t: Table, fd: int)
    requires Coherent(t) && fd in t.chans
    ensures Coherent(PollStep(t, Remove(fd)))
  {
    var c := t.chans[fd];
    var k := Wanted(t.chans);
    KernelRunSnoc(map[], t.ctls, CtlDel(fd));
    assert c.index != Added ==> k - {fd} == k;
    assert Wanted(t.chans[fd := Removed(c)]) == k - {fd};
  }

  /** Over any run of enables, disables and removals the kernel agrees with the channels and no
      `epoll_ctl` ever fails. */
  lemma {:induction false} PollerRefinesKernel(ops: seq<PollOp>)
    requires PollRun(EMPTY_TABLE, ops).Some?
    ensures Coherent(PollRun(EMPTY_TABLE, ops).value)
    decreases |ops|
  {
    if ops == [] {
      assert Wanted(map[]) == map[];
    } else {
      PollerRefinesKernel(ops[..|ops| - 1]);
      PollStepCoherent(PollRun(EMPTY_TABLE, ops[..|ops| - 1]).value, ops[|ops| - 1]);
    }
  }

  // Channels left in the kernel without events

  /** What the kernel watches a channel for after each of its switches: enabling watches, whatever the channel was;
      disabling stops just that, and leaves an added channel out when nothing else is watched. */
  lemma SwitchesExactly(c: Chan)
    ensures EnableReading(c).Interest() == Some(Events(true, c.events.writing))
    ensures EnableWriting(c).Interest() == Some(Events(c.events.reading, true))
    ensures c.index == Added ==>
      && DisableReading(c).Interest() == (if c.events.writing then Some(Events(false, true)) else None)
      && DisableWriting(c).Interest() == (if c.events.reading then Some(Events(true, false)) else None)
      && DisableAll(c).Interest() == None
    ensures Removed(c).Interest() == None && Removed(c).index == New
    ensures DisableReading(c).events == Events(false, c.events.writing)
    ensures DisableWriting(c).events == Events(c.events.reading, false)
    ensures DisableAll(c).events == NONE_EVENT
  {
  }

  /** An update that leaves no events takes the channel out of the kernel exactly when it was there: a
      new channel, or one already out, is put in with no events. */
  lemma IdleUpdateExactly(c: Chan)
    requires c.events == NONE_EVENT
    ensures Updated(c).Interest() == None <==> c.index == Added
    ensures Updated(c).Interest() == Some(NONE_EVENT) <==> c.index != Added
  {
  }

  /** So `disableAll` works once; a second one, or one on a fresh channel, registers the channel. */
  lemma DisableAllExactly(c: Chan)
    ensures DisableAll(c).Interest() == None <==> c.index == Added
    ensures DisableAll(DisableAll(c)).Interest() == None <==> c.index != Added
  {
    IdleUpdateExactly(c.(events := NONE_EVENT));
    IdleUpdateExactly(DisableAll(c));
  }

  /** The kernel watches `fd` for no events, and so for errors and hang-ups only. */
  predicate Idle(t: Table, fd: int) {
    var k := KernelRun(map[], t.ctls);
    k.Some? && fd in k.value && k.value[fd] == NONE_EVENT
  }

  /** The operation sets no events on a channel that is not in the kernel. */
  predicate ReAdds(t: Table, op: PollOp, fd: int) {
    op == SetEvents(fd, NONE_EVENT) && fd in t.chans && t.chans[fd].index != Added
  }

  predicate Touches(op: PollOp, fd: int) { op.fd == fd }

  /** What one operation does to idleness in the kernel. */
  lemma PollStepIdles(t: Table, op: PollOp, fd: int)
    requires Coherent(t) && Allowed(t, op)
    ensures Idle(PollStep(t, op), fd) <==> ReAdds(t, op, fd) || (Idle(t, fd) && !Touches(op, fd))
  {
    PollStepCoherent(t, op);
    hide KernelRun;
    assert Idle(t, fd) <==> fd in Wanted(t.chans) && Wanted(t.chans)[fd] == NONE_EVENT;
    var t' := PollStep(t, op);
    assert Idle(t', fd) <==> fd in Wanted(t'.chans) && Wanted(t'.chans)[fd] == NONE_EVENT;
    if op == Discard(fd) || op == Create(fd) { assert fd !in Wanted(t.chans); }
  }

  /** In no state of the run is a descriptor idle in the kernel. */
  ghost predicate NeverIdle(ops: seq<PollOp>)
    requires PollRun(EMPTY_TABLE, ops).Some?
  {
    (forall fd :: !Idle(PollRun(EMPTY_TABLE, ops).value, fd)) && (ops == [] || NeverIdle(ops[..|ops| - 1]))
  }

  ghost predicate NeverReAdds(ops: seq<PollOp>)
    requires PollRun(EMPTY_TABLE, ops).Some?
  {
    ops == [] ||
    var n := |ops| - 1;
    NeverReAdds(ops[..n]) && forall fd :: !ReAdds(PollRun(EMPTY_TABLE, ops[..n]).value, ops[n], fd)
  }

  /** A run never leaves a descriptor in the kernel without events exactly when none of its operations
      sets no events on a channel that is not in the kernel. */
  lemma {:induction false} NeverIdleExactly(ops: seq<PollOp>)
    requires PollRun(EMPTY_TABLE, ops).Some?
    ensures NeverIdle(ops) <==> NeverReAdds(ops)
    decreases |ops|
  {
    if ops == [] {
      assert KernelRun(map[], []) == Some(map[]);
    } else {
      var n := |ops| - 1;
      var t := PollRun(EMPTY_TABLE, ops[..n]).value;
      NeverIdleExactly(ops[..n]);
      PollerRefinesKernel(ops[..n]);
      hide Idle, ReAdds, PollStep, Allowed, Coherent;
      forall fd
        ensures Idle(PollStep(t, ops[n]), fd) <==> ReAdds(t, ops[n], fd) || (Idle(t, fd) && !Touches(ops[n], fd))
      {
        PollStepIdles(t, ops[n], fd);
      }
      if NeverIdle(ops[..n]) { NotIdleNow(ops[..n]); }
    }
  }

  lemma NotIdleNow(ops: seq<PollOp>)
    requires PollRun(EMPTY_TABLE, ops).Some? && NeverIdle(ops)
    ensures forall fd :: !Idle(PollRun(EMPTY_TABLE, ops).value, fd)
  {
  }
}

module Pollers {
  import opened Text
  import opened ChannelSpec

  const INIT_EVENT_LIST_SIZE: nat := 16

  class Channel {
    const fd: int
    const poller: EpollPoller
    var events: Events
    var revents: Revents
    var index: Index
    var tied: bool

    function View(): Chan reads this { Chan(events, index) }

    constructor (poller: EpollPoller, fd: int)
      requires poller.Valid() && fd !in poller.Fds()
      modifies poller
      ensures poller.Valid() && poller.live == old(poller.live) + {this}
      ensures poller.channels == old(poller.channels) && poller.kernel == old(poller.kernel)
      ensures this.poller == poller && this.fd == fd && View() == FRESH_CHAN && !tied
    {
      this.fd, this.poller := fd, poller;
      events, revents, index, tied := NONE_EVENT, Revents(false, false, false, false, false), New, false;
      new;
      poller.live := poller.live + {this};
    }

    ghost predicate Registered()
      reads this, poller, poller.live
    {
      poller.Valid() && this in poller.live
    }

    /** This channel is now `v`, the kernel holds what `v` asks for, and no other channel or
        kernel entry has changed. */
    twostate predicate Became(v: Chan)
      reads this, poller, poller.live
    {
      && Registered() && View() == v
      && poller.live == old(poller.live)
      && poller.kernel == (if v.index == Added then old(poller.kernel)[fd := v.events] else old(poller.kernel) - {fd})
      && forall c | c in poller.live && c != this :: unchanged(c)
    }

    method Update()
      requires poller.ValidExcept(this) && this in poller.live
      modifies this`index, poller`channels, poller`kernel
      ensures Became(Updated(old(View())))
    {
      poller.UpdateChannel(this);
    }

    method EnableReading()
      requires Registered()
      modifies this`events, this`index, poller`channels, poller`kernel
      ensures Became(ChannelSpec.EnableReading(old(View())))
    {
      events := events.(reading := true);
      Update();
    }

    method DisableReading()
      requires Registered()
      modifies this`events, this`index, poller`channels, poller`kernel
      ensures Became(ChannelSpec.DisableReading(old(View())))
    {
      events := events.(reading := false);
      Update();
    }

    method EnableWriting()
      requires Registered()
      modifies this`events, this`index, poller`channels, poller`kernel
      ensures Became(ChannelSpec.EnableWriting(old(View())))
    {
      events := events.(writing := true);
      Update();
    }

    method DisableWriting()
      requires Registered()
      modifies this`events, this`index, poller`channels, poller`kernel
      ensures Became(ChannelSpec.DisableWriting(old(View())))
    {
      events := events.(writing := false);
      Update();
    }

    method DisableAll()
      requires Registered()
      modifies this`events, this`index, poller`channels, poller`kernel
      ensures Became(ChannelSpec.DisableAll(old(View())))
    {
      events := NONE_EVENT;
      Update();
    }

    method Remove()
      requires Registered()
      modifies this`index, poller`channels, poller`kernel
      ensures Became(Removed(old(View())))
    {
      poller.RemoveChannel(this);
    }
  }

  class EpollPoller {
    var channels: map<int, Channel>
    /** The kernel's interest table for this epoll instance. */
    var kernel: map<int, Events>
    var eventListSize: nat
    /** The channels of this poller that exist. */
    ghost var live: set<Channel>

    /** The kernel holds exactly the events of the added channels, except that those of `x` may
        have changed since; `channels` holds exactly the added and deleted ones. */
    ghost predicate ValidExcept(x: Channel?)
      reads this, live
    {
      && (forall c | c in live :: c.poller == this)
      && (forall c, d | c in live && d in live && c != d :: c.fd != d.fd)
      && (forall c | c in live ::
            && (c.fd in channels <==> c.index != New)
            && (c.fd in kernel <==> c.index == Added)
            && (c.fd in channels ==> channels[c.fd] == c)
            && (c != x && c.fd in kernel ==> kernel[c.fd] == c.events))
      && (forall fd | fd in channels :: channels[fd] in live && channels[fd].fd == fd)
      && (forall fd | fd in kernel :: fd in channels)
    }

    ghost predicate Valid()
      reads this, live
    {
      ValidExcept(null)
    }

    ghost function Fds(): set<int>
      reads this, live
    {
      set c | c in live :: c.fd
    }

    constructor ()
      ensures Valid() && live == {}
    {
      channels, kernel, live := map[], map[], {};
      eventListSize := INIT_EVENT_LIST_SIZE;
    }

    /** `epoll_ctl`.  The precondition is the kernel's: anything else is an error return. */
    method EpollCtl(ctl: Ctl)
      requires KernelCtl(kernel, ctl).Some?
      modifies this`kernel
      ensures Some(kernel) == KernelCtl(old(kernel), ctl)
    {
      match ctl
      case CtlAdd(fd, ev) => kernel := kernel[fd := ev];
      case CtlMod(fd, ev) => kernel := kernel[fd := ev];
      case CtlDel(fd) => kernel := kernel - {fd};
    }

    method UpdateChannel(channel: Channel)
      requires ValidExcept(channel) && channel in live
      modifies this`channels, this`kernel, channel`index
      ensures Valid()
      ensures channel.View() == Updated(old(channel.View()))
      ensures kernel == if channel.index == Added then old(kernel)[channel.fd := channel.events]
                        else old(kernel) - {channel.fd}
    {
      var index := channel.index;
      if index == New || index == Deleted {
        if index == New {
          channels := channels[channel.fd := channel];
        }
        channel.index := Added;
        EpollCtl(CtlAdd(channel.fd, channel.events));
      } else if channel.events == NONE_EVENT {
        EpollCtl(CtlDel(channel.fd));
        channel.index := Deleted;
      } else {
        EpollCtl(CtlMod(channel.fd, channel.events));
      }
    }

    method RemoveChannel(channel: Channel)
      requires Valid() && channel in live
      modifies this`channels, this`kernel, channel`index
      ensures Valid()
      ensures channel.View() == Removed(old(channel.View()))
      ensures kernel == old(kernel) - {channel.fd}
    {
      channels := channels - {channel.fd};
      if channel.index == Added {
        EpollCtl(CtlDel(channel.fd));
      }
      channel.index := New;
    }

    /** One wait: the kernel reports some added channels, each at most once and with events it
        is watched for (errors and hang-ups always are).  The active list is those channels,
        and the event array doubles when it was full. */
    method Poll(ready: seq<(Channel, Revents)>) returns (active: seq<Channel>)
      requires Valid() && |ready| <= eventListSize
      requires forall i | 0 <= i < |ready| :: ready[i].0 in live && ready[i].0.index == Added
      requires forall i, j | 0 <= i < j < |ready| :: ready[i].0 != ready[j].0
      modifies this`eventListSize, live`revents
      ensures Valid()
      ensures |active| == |ready|
      ensures forall i | 0 <= i < |active| :: active[i] == ready[i].0 && active[i].revents == ready[i].1
      ensures eventListSize == if |ready| > 0 && |ready| == old(eventListSize) then 2 * old(eventListSize)
                               else old(eventListSize)
    {
      active := [];
      var i := 0;
      while i < |ready|
        invariant 0 <= i <= |ready| && |active| == i
        invariant Valid() && eventListSize == old(eventListSize)
        invariant forall k | 0 <= k < i :: active[k] == ready[k].0 && active[k].revents == ready[k].1
      {
        ready[i].0.revents := ready[i].1;
        active := active + [ready[i].0];
        i := i + 1;
      }
      if |ready| > 0 && |ready| == eventListSize {
        eventListSize := 2 * eventListSize;
      }
    }
  }
}
