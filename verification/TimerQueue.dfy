/** The timer queue (src/timer/TimerQueue.cpp): an ordered set of timers and one timerfd.  Times
    are microseconds on one clock that never goes back. */
module TimerSpec {
  import opened Text

  /** An entry of the ordered set together with its timer.  `addr` is the timer's address, which may be
      used again when the timer is gone; `id` is a number of its own that tells timers of the past apart. */
  datatype Rec = Rec(when: int, addr: nat, id: nat, interval: nat, repeat: bool)

  /** The order of `std::pair<Timestamp, Timer *>`. */
  predicate Before(a: Rec, b: Rec) { a.when < b.when || (a.when == b.when && a.addr < b.addr) }

  ghost predicate Sorted(ts: seq<Rec>) { forall i, j | 0 <= i < j < |ts| :: Before(ts[i], ts[j]) }

  /** Two timers that exist together. */
  predicate Unlike(a: Rec, b: Rec) { a.id != b.id && a.addr != b.addr }

  ghost predicate Distinct(ts: seq<Rec>) { forall i, j | 0 <= i < j < |ts| :: Unlike(ts[i], ts[j]) }

  ghost predicate UnlikeAll(r: Rec, ts: seq<Rec>) { forall i | 0 <= i < |ts| :: Unlike(ts[i], r) }

  ghost function Ids(ts: seq<Rec>): set<nat> { set i | 0 <= i < |ts| :: ts[i].id }

  function Insert(ts: seq<Rec>, r: Rec): seq<Rec> {
    if ts == [] || Before(r, ts[0]) then [r] + ts else [ts[0]] + Insert(ts[1..], r)
  }

  /** How many entries are before the sentry of `now`: `lower_bound`. */
  function ExpiredCount(ts: seq<Rec>, now: int): (n: nat)
    ensures n <= |ts|
  {
    if ts == [] || ts[0].when > now then 0 else 1 + ExpiredCount(ts[1..], now)
  }

  /** A timerfd: idle, or set at time `at` to fire at `deadline`, the call taking effect `lag`
      later.  It has fired once the deadline has passed. */
  datatype Fd = Disarmed | Armed(deadline: int, at: int, lag: nat) {
    predicate Fired(clock: int) { Armed? && deadline <= clock }
  }

  datatype Queue = Queue(ts: seq<Rec>, fd: Fd)

  const MIN_DELAY: nat := 100
  const MICROSECONDS_PER_SECOND: nat := 1_000_000

  /** The delay given to the kernel. */
  function Delay(expiration: int, now: int): (d: nat)
    ensures d >= MIN_DELAY && now + d >= expiration
  {
    Max(expiration - now, MIN_DELAY)
  }

  /** `resetTimerfd`, called at `now` and taking effect `lag` later. */
  function ArmFor(expiration: int, now: int, lag: nat): Fd {
    Armed(now + lag + Delay(expiration, now), now, lag)
  }

  /** A delay as seconds and nanoseconds. */
  function Timespec(us: nat): (nat, nat) {
    (us / MICROSECONDS_PER_SECOND, us % MICROSECONDS_PER_SECOND * 1000)
  }

  lemma TimespecExact(us: nat)
    ensures var (sec, nsec) := Timespec(us);
      nsec < 1_000_000_000 && sec * 1_000_000_000 + nsec == us * 1000
  {
    var sec := us / MICROSECONDS_PER_SECOND;
    assert us == sec * 1_000_000 + us % MICROSECONDS_PER_SECOND;
    assert sec * 1_000_000_000 == sec * 1_000_000 * 1000;
  }

  predicate EarliestChanged(ts: seq<Rec>, r: Rec) { ts == [] || r.when < ts[0].when }

  /** `addTimerInLoop` at time `now`. */
  function Add(q: Queue, r: Rec, now: int, lag: nat): Queue {
    Queue(Insert(q.ts, r), if EarliestChanged(q.ts, r) then ArmFor(r.when, now, lag) else q.fd)
  }

  /** A timer added by user code at a time. */
  datatype Adding = Adding(r: Rec, now: int, lag: nat)

  function AddAll(q: Queue, adds: seq<Adding>): Queue
    decreases |adds|
  {
    if adds == [] then q else AddAll(Add(q, adds[0].r, adds[0].now, adds[0].lag), adds[1..])
  }

  /** A moment at which the timerfd is set. */
  datatype Moment = Moment(now: int, lag: nat)

  /** One turn of the loop of `reset`: a repeating timer goes back, a one-shot timer is deleted,
      and the timerfd is set for whatever is now first. */
  function ResetOne(q: Queue, r: Rec, now: int, m: Moment): Queue {
    var ts := if r.repeat then Insert(q.ts, r.(when := now + r.interval)) else q.ts;
    Queue(ts, if ts != [] then ArmFor(ts[0].when, m.now, m.lag) else q.fd)
  }

  function Reset(q: Queue, expired: seq<Rec>, now: int, moments: seq<Moment>): Queue
    requires |moments| == |expired|
    decreases |expired|
  {
    if expired == [] then q
    else Reset(ResetOne(q, expired[0], now, moments[0]), expired[1..], now, moments[1..])
  }

  /** Reading the timerfd at time `at`: a fired timerfd is consumed, otherwise nothing happens. */
  function Consumed(fd: Fd, at: int): Fd { if fd.Fired(at) then Disarmed else fd }

  /** `handleRead`: `now` is sampled, then the timerfd is read at `readAt`, then the callbacks of the
      expired timers run and add `adds`, then `reset` sets the timerfd at `moments`. */
  function HandleRead(q: Queue, now: int, readAt: int, adds: seq<Adding>, moments: seq<Moment>): Queue
    requires |moments| == ExpiredCount(q.ts, now)
  {
    var n := ExpiredCount(q.ts, now);
    var q1 := AddAll(Queue(q.ts[n..], Consumed(q.fd, readAt)), adds);
    Reset(q1, q.ts[..n], now, moments)
  }

  // The ordered set

  lemma {:induction false} InsertKeeps(ts: seq<Rec>, r: Rec)
    requires Sorted(ts) && Distinct(ts) && UnlikeAll(r, ts)
    ensures Sorted(Insert(ts, r)) && Distinct(Insert(ts, r))
    ensures forall x :: x in Insert(ts, r) <==> x == r || x in ts
    ensures Ids(Insert(ts, r)) == Ids(ts) + {r.id}
    ensures Insert(ts, r)[0] == if EarliestChanged(ts, r) || Before(r, ts[0]) then r else ts[0]
  {
    if ts == [] || Before(r, ts[0]) {
    } else {
      assert forall i | 0 <= i < |ts| - 1 :: ts[1..][i] == ts[i + 1];
      InsertKeeps(ts[1..], r);
      var rest := Insert(ts[1..], r);
      assert ts[0].id in Ids(ts);
      forall j | 0 <= j < |rest| ensures Before(ts[0], rest[j]) && Unlike(ts[0], rest[j]) {
        assert rest[j] in rest;
      }
      assert ts == [ts[0]] + ts[1..];
    }
    IdsFollow(ts, Insert(ts, r), r);
  }

  lemma IdsFollow(ts: seq<Rec>, us: seq<Rec>, r: Rec)
    requires forall x :: x in us <==> x == r || x in ts
    ensures Ids(us) == Ids(ts) + {r.id}
  {
    forall n | n in Ids(us) ensures n in Ids(ts) + {r.id} {
      var i :| 0 <= i < |us| && us[i].id == n;
      assert us[i] in us;
    }
    forall n | n in Ids(ts) + {r.id} ensures n in Ids(us) {
      if n == r.id { assert r in us; }
      else { var i :| 0 <= i < |ts| && ts[i].id == n; assert ts[i] in us; }
    }
  }

  /** `getExpired` takes exactly the entries whose time has come. */
  lemma {:induction false} ExpiredSplits(ts: seq<Rec>, now: int)
    requires Sorted(ts)
    ensures var n := ExpiredCount(ts, now);
      (forall i | 0 <= i < |ts| :: ts[i].when <= now <==> i < n)
  {
    if ts == [] {
    } else {
      assert forall i | 0 <= i < |ts| - 1 :: ts[1..][i] == ts[i + 1];
      if ts[0].when <= now {
        ExpiredSplits(ts[1..], now);
        forall i | 0 <= i < |ts| ensures ts[i].when <= now <==> i < ExpiredCount(ts, now) {
          if i > 0 { assert ts[i] == ts[1..][i - 1]; }
        }
      } else {
        forall i | 0 < i < |ts| ensures ts[i].when > now { assert Before(ts[0], ts[i]); }
      }
    }
  }

  // Timers added by callbacks and put back by `reset`

  /** Timers that are not in the set and differ from one another. */
  ghost predicate FreshAdds(ts: seq<Rec>, adds: seq<Adding>) {
    && (forall i | 0 <= i < |adds| :: UnlikeAll(adds[i].r, ts))
    && forall i, j | 0 <= i < j < |adds| :: Unlike(adds[i].r, adds[j].r)
  }

  /** Adding the first of fresh timers leaves the rest fresh. */
  lemma FreshNext(q: Queue, adds: seq<Adding>)
    requires Sorted(q.ts) && Distinct(q.ts) && FreshAdds(q.ts, adds) && adds != []
    ensures UnlikeAll(adds[0].r, q.ts)
    ensures FreshAdds(Add(q, adds[0].r, adds[0].now, adds[0].lag).ts, adds[1..])
  {
    InsertKeeps(q.ts, adds[0].r);
    var ts := Insert(q.ts, adds[0].r);
    forall i | 0 <= i < |adds| - 1 ensures UnlikeAll(adds[1..][i].r, ts) {
      forall j | 0 <= j < |ts| ensures Unlike(ts[j], adds[i + 1].r) {
        assert ts[j] in ts;
      }
    }
    assert forall i | 0 <= i < |adds| - 1 :: adds[1..][i] == adds[i + 1];
  }

  lemma {:induction false} AddAllKeeps(q: Queue, adds: seq<Adding>)
    requires Sorted(q.ts) && Distinct(q.ts) && FreshAdds(q.ts, adds)
    ensures var ts := AddAll(q, adds).ts;
      && Sorted(ts) && Distinct(ts)
      && forall x :: x in ts <==> x in q.ts || exists i :: 0 <= i < |adds| && adds[i].r == x
    decreases |adds|
  {
    if adds == [] {
    } else {
      var a := adds[0];
      InsertKeeps(q.ts, a.r);
      var q1 := Add(q, a.r, a.now, a.lag);
      assert forall i | 0 <= i < |adds| - 1 :: adds[1..][i] == adds[i + 1];
      FreshNext(q, adds);
      AddAllKeeps(q1, adds[1..]);
      var ts := AddAll(q, adds).ts;
      forall x ensures x in ts <==> x in q.ts || exists i :: 0 <= i < |adds| && adds[i].r == x {
        if i :| 0 <= i < |adds| && adds[i].r == x {
          assert i > 0 ==> adds[1..][i - 1].r == x;
        }
      }
    }
  }

  function Restarted(r: Rec, now: int): Rec { r.(when := now + r.interval) }

  /** The expired timers are none of those in the set. */
  ghost predicate Apart(ts: seq<Rec>, expired: seq<Rec>) {
    Distinct(expired) && forall i | 0 <= i < |expired| :: UnlikeAll(expired[i], ts)
  }

  /** No timer has come but `r`'s. */
  ghost predicate SameTimers(before: seq<Rec>, after: seq<Rec>, r: Rec) {
    forall x | x in after :: x in before || (x.id == r.id && x.addr == r.addr)
  }

  /** Putting the first expired timer back leaves the others apart from the set. */
  lemma ApartNext(ts: seq<Rec>, us: seq<Rec>, expired: seq<Rec>)
    requires Apart(ts, expired) && expired != [] && SameTimers(ts, us, expired[0])
    ensures Apart(us, expired[1..])
  {
    forall i, j | 0 <= i < |expired| - 1 && 0 <= j < |us| ensures Unlike(us[j], expired[1..][i]) {
      assert us[j] in us && expired[1..][i] == expired[i + 1];
      if us[j] in ts {
        var k :| 0 <= k < |ts| && ts[k] == us[j];
        assert Unlike(ts[k], expired[i + 1]);
      } else {
        assert Unlike(expired[0], expired[i + 1]);
      }
    }
  }

  lemma {:induction false} ResetKeeps(q: Queue, expired: seq<Rec>, now: int, moments: seq<Moment>)
    requires |moments| == |expired| && Sorted(q.ts) && Distinct(q.ts) && Apart(q.ts, expired)
    ensures var ts := Reset(q, expired, now, moments).ts;
      && Sorted(ts) && Distinct(ts)
      && forall x :: x in ts <==>
           x in q.ts || exists i :: 0 <= i < |expired| && expired[i].repeat && x == Restarted(expired[i], now)
    decreases |expired|
  {
    if expired == [] {
    } else {
      var r := expired[0];
      if r.repeat { InsertKeeps(q.ts, Restarted(r, now)); }
      var q1 := ResetOne(q, r, now, moments[0]);
      ApartNext(q.ts, q1.ts, expired);
      assert forall i | 0 <= i < |expired| - 1 :: expired[1..][i] == expired[i + 1];
      ResetKeeps(q1, expired[1..], now, moments[1..]);
      var ts := Reset(q, expired, now, moments).ts;
      forall x ensures x in ts <==>
        x in q.ts || exists i :: 0 <= i < |expired| && expired[i].repeat && x == Restarted(expired[i], now)
      {
        if i :| 0 <= i < |expired| && expired[i].repeat && x == Restarted(expired[i], now) {
          assert i > 0 ==> expired[1..][i - 1] == expired[i];
        }
      }
    }
  }

  lemma SplitKeeps(ts: seq<Rec>, n: nat)
    requires n <= |ts| && Sorted(ts) && Distinct(ts)
    ensures Sorted(ts[n..]) && Distinct(ts[n..]) && Distinct(ts[..n]) && Apart(ts[n..], ts[..n])
    ensures Ids(ts[n..]) <= Ids(ts)
  {
    forall k | k in Ids(ts[n..]) ensures k in Ids(ts) {
      var i :| 0 <= i < |ts[n..]| && ts[n..][i].id == k;
      assert ts[n + i].id == k;
    }
  }

  /** What is in the set after a firing: what had not expired, what the callbacks added and the
      repeating timers that ran, one interval after `now`. */
  lemma HandleReadKeeps(q: Queue, now: int, readAt: int, adds: seq<Adding>, moments: seq<Moment>)
    requires Sorted(q.ts) && Distinct(q.ts) && FreshAdds(q.ts, adds)
    requires |moments| == ExpiredCount(q.ts, now)
    ensures var ts := HandleRead(q, now, readAt, adds, moments).ts;
      && Sorted(ts) && Distinct(ts)
      && forall x :: x in ts <==>
           || (x in q.ts && x.when > now)
           || (exists i :: 0 <= i < |adds| && adds[i].r == x)
           || exists r :: r in q.ts && r.when <= now && r.repeat && x == Restarted(r, now)
  {
    var n := ExpiredCount(q.ts, now);
    SplitKeeps(q.ts, n);
    var q0 := Queue(q.ts[n..], Consumed(q.fd, readAt));
    AddAllKeeps(q0, adds);
    var q1 := AddAll(q0, adds);
    ApartAfterAdds(q.ts, n, q1.ts, adds);
    ResetKeeps(q1, q.ts[..n], now, moments);
    SplitMembers(q.ts, now);
    var ts := HandleRead(q, now, readAt, adds, moments).ts;
    forall x ensures x in ts <==>
           || (x in q.ts && x.when > now)
           || (exists i :: 0 <= i < |adds| && adds[i].r == x)
           || exists r :: r in q.ts && r.when <= now && r.repeat && x == Restarted(r, now)
    {
      RestartedAmong(q.ts, now, x);
    }
  }

  lemma ApartAfterAdds(ts: seq<Rec>, n: nat, us: seq<Rec>, adds: seq<Adding>)
    requires n <= |ts| && Apart(ts[n..], ts[..n]) && FreshAdds(ts, adds)
    requires forall x :: x in us <==> x in ts[n..] || exists i :: 0 <= i < |adds| && adds[i].r == x
    ensures Apart(us, ts[..n])
  {
    forall k, j | 0 <= k < n && 0 <= j < |us| ensures Unlike(us[j], ts[..n][k]) {
      assert us[j] in us && ts[..n][k] == ts[k];
      if us[j] in ts[n..] {
        var m :| 0 <= m < |ts[n..]| && ts[n..][m] == us[j];
        assert Unlike(ts[n..][m], ts[..n][k]);
      } else {
        var i :| 0 <= i < |adds| && adds[i].r == us[j];
        assert Unlike(ts[k], adds[i].r);
      }
    }
  }

  lemma SplitMembers(ts: seq<Rec>, now: int)
    requires Sorted(ts)
    ensures var n := ExpiredCount(ts, now);
      && (forall x :: x in ts[n..] <==> x in ts && x.when > now)
      && (forall x :: x in ts[..n] <==> x in ts && x.when <= now)
  {
    ExpiredSplits(ts, now);
    hide ExpiredCount, Sorted;
    var n := ExpiredCount(ts, now);
    forall x ensures x in ts[n..] <==> x in ts && x.when > now { InSuffix(ts, n, now, x); }
    forall x ensures x in ts[..n] <==> x in ts && x.when <= now { InPrefix(ts, n, now, x); }
  }

  lemma InSuffix(ts: seq<Rec>, n: nat, now: int, x: Rec)
    requires n <= |ts| && forall i | 0 <= i < |ts| :: ts[i].when <= now <==> i < n
    ensures x in ts[n..] <==> x in ts && x.when > now
  {
    if x in ts && x.when > now {
      var i :| 0 <= i < |ts| && ts[i] == x;
      assert ts[n..][i - n] == x;
    }
  }

  lemma InPrefix(ts: seq<Rec>, n: nat, now: int, x: Rec)
    requires n <= |ts| && forall i | 0 <= i < |ts| :: ts[i].when <= now <==> i < n
    ensures x in ts[..n] <==> x in ts && x.when <= now
  {
    if x in ts && x.when <= now {
      var i :| 0 <= i < |ts| && ts[i] == x;
      assert ts[..n][i] == x;
    }
  }

  lemma RestartedAmong(ts: seq<Rec>, now: int, x: Rec)
    requires Sorted(ts)
    ensures var n := ExpiredCount(ts, now);
      (exists i :: 0 <= i < |ts[..n]| && ts[..n][i].repeat && x == Restarted(ts[..n][i], now))
      <==> exists r :: r in ts && r.when <= now && r.repeat && x == Restarted(r, now)
  {
    var n := ExpiredCount(ts, now);
    SplitMembers(ts, now);
    if i :| 0 <= i < |ts[..n]| && ts[..n][i].repeat && x == Restarted(ts[..n][i], now) {
      assert ts[..n][i] in ts[..n];
    }
    if r :| r in ts && r.when <= now && r.repeat && x == Restarted(r, now) {
      assert r in ts[..n];
    }
  }

  // The timerfd

  /** No timer is lost: a non-empty set has an armed (or already fired) timerfd, due no earlier than
      the first timer, and no later than it or the shortest delay after the arming. */
  ghost predicate Covered(q: Queue) {
    q.ts != [] ==>
      && q.fd.Armed?
      && q.ts[0].when <= q.fd.deadline <= Max(q.ts[0].when, q.fd.at + MIN_DELAY) + q.fd.lag
  }

  lemma AddCovers(q: Queue, r: Rec, now: int, lag: nat)
    requires Covered(q)
    ensures Covered(Add(q, r, now, lag))
  {
  }

  lemma {:induction false} AddAllCovers(q: Queue, adds: seq<Adding>)
    requires Covered(q)
    ensures Covered(AddAll(q, adds))
    decreases |adds|
  {
    if adds == [] {
    } else {
      AddCovers(q, adds[0].r, adds[0].now, adds[0].lag);
      AddAllCovers(Add(q, adds[0].r, adds[0].now, adds[0].lag), adds[1..]);
    }
  }

  lemma {:induction false} ResetCovers(q: Queue, expired: seq<Rec>, now: int, moments: seq<Moment>)
    requires |moments| == |expired| && expired != []
    ensures Covered(Reset(q, expired, now, moments))
    decreases |expired|
  {
    var q1 := ResetOne(q, expired[0], now, moments[0]);
    assert Covered(q1);
    if |expired| == 1 {
    } else {
      ResetCovers(q1, expired[1..], now, moments[1..]);
    }
  }

  /** The timerfd fires between sampling the clock and being read, when the sampled time is still
      before every timer: the read consumes the firing, no timer has expired, and `reset` does
      nothing. */
  predicate LateFire(q: Queue, now: int, readAt: int) {
    q.ts != [] && q.ts[0].when > now && q.fd.Fired(readAt)
  }

  /** Handling a firing loses no timer exactly when it is not such a late one. */
  lemma HandleReadCoversExactly(q: Queue, now: int, readAt: int, adds: seq<Adding>, moments: seq<Moment>)
    requires Covered(q) && |moments| == ExpiredCount(q.ts, now)
    requires ExpiredCount(q.ts, now) == 0 ==> adds == []
    ensures Covered(HandleRead(q, now, readAt, adds, moments)) <==> !LateFire(q, now, readAt)
  {
    var n := ExpiredCount(q.ts, now);
    if n > 0 {
      ResetCovers(AddAll(Queue(q.ts[n..], Consumed(q.fd, readAt)), adds), q.ts[..n], now, moments);
    } else {
      assert q.ts[0..] == q.ts;
    }
  }

  // Whole runs

  /** A callback run: the timer, the time it was due and the `now` of the firing. */
  datatype Run = Run(id: nat, due: int, now: int)

  /** The queue, the clock, whether the timerfd is on the active list of the current poll result,
      every timer ever added (by a number of its own) and every callback run. */
  datatype Sys = Sys(q: Queue, clock: int, active: bool, added: map<nat, Rec>, runs: seq<Run>)

  datatype Step =
    | Tick(clock: int)
    | PollFires
    | AddTimer(r: Rec, lag: nat)
    | Handle(readAt: int, adds: seq<Adding>, moments: seq<Moment>, end: int)

  /** A timer is allocated where no timer of the set is; expired timers are deleted only after the
      callbacks. */
  predicate NewAddress(ts: seq<Rec>, r: Rec) { forall i | 0 <= i < |ts| :: ts[i].addr != r.addr }

  predicate CanDo(s: Sys, step: Step) {
    match step
    case Tick(to) => to >= s.clock
    case PollFires => !s.active && s.q.fd.Fired(s.clock)
    case AddTimer(r, _) => r.id !in s.added && NewAddress(s.q.ts, r)
    case Handle(readAt, adds, moments, end) =>
      && s.active && s.clock <= readAt <= end
      && |moments| == ExpiredCount(s.q.ts, s.clock) && (moments == [] ==> adds == [])
      && (forall i | 0 <= i < |adds| ::
            adds[i].r.id !in s.added && NewAddress(s.q.ts, adds[i].r) && readAt <= adds[i].now <= end)
      && (forall i, j | 0 <= i < j < |adds| :: Unlike(adds[i].r, adds[j].r))
      && forall i | 0 <= i < |moments| :: readAt <= moments[i].now <= end
  }

  function RunsOf(expired: seq<Rec>, now: int): (runs: seq<Run>)
    ensures |runs| == |expired|
    ensures forall i | 0 <= i < |runs| :: runs[i] == Run(expired[i].id, expired[i].when, now)
  {
    seq(|expired|, i requires 0 <= i < |expired| => Run(expired[i].id, expired[i].when, now))
  }

  function WithAdds(added: map<nat, Rec>, adds: seq<Adding>): map<nat, Rec>
    decreases |adds|
  {
    if adds == [] then added else WithAdds(added[adds[0].r.id := adds[0].r], adds[1..])
  }

  function Do(s: Sys, step: Step): Sys
    requires CanDo(s, step)
  {
    match step
    case Tick(to) => s.(clock := to)
    case PollFires => s.(active := true)
    case AddTimer(r, lag) => s.(q := Add(s.q, r, s.clock, lag), added := s.added[r.id := r])
    case Handle(readAt, adds, moments, end) =>
      Sys(HandleRead(s.q, s.clock, readAt, adds, moments), end, false, WithAdds(s.added, adds),
          s.runs + RunsOf(s.q.ts[..ExpiredCount(s.q.ts, s.clock)], s.clock))
  }

  function Start(clock: int): Sys { Sys(Queue([], Disarmed), clock, false, map[], []) }

  function RunSteps(s: Sys, steps: seq<Step>): Option<Sys> {
    if steps == [] then Some(s)
    else
      match RunSteps(s, steps[..|steps| - 1])
      case None => None
      case Some(s1) => if CanDo(s1, steps[|steps| - 1]) then Some(Do(s1, steps[|steps| - 1])) else None
  }

  /** When a timer added as `r` is next due, after `runs`. */
  function NextDue(r: Rec, runs: seq<Run>): int {
    if runs == [] then r.when
    else
      var last := runs[|runs| - 1];
      if last.id == r.id then last.now + r.interval else NextDue(r, runs[..|runs| - 1])
  }

  predicate Ran(runs: seq<Run>, id: nat) { exists i | 0 <= i < |runs| :: runs[i].id == id }

  /** Every run was of a known timer, when it was due and not before, and only a repeating timer
      ran again. */
  ghost predicate Scheduled(added: map<nat, Rec>, runs: seq<Run>) {
    && (forall i | 0 <= i < |runs| ::
          && runs[i].id in added && runs[i].due == NextDue(added[runs[i].id], runs[..i])
          && runs[i].due <= runs[i].now
          && (Ran(runs[..i], runs[i].id) ==> added[runs[i].id].repeat))
    && forall i, j | 0 <= i <= j < |runs| :: runs[i].now <= runs[j].now
  }

  /** The set holds exactly the timers added, less the one-shot timers that have run, each at the
      time it is next due. */
  ghost predicate Conserved(s: Sys) {
    && (forall x | x in s.q.ts ::
          x.id in s.added && x == s.added[x.id].(when := NextDue(s.added[x.id], s.runs)))
    && forall id | id in s.added :: id in Ids(s.q.ts) <==> s.added[id].repeat || !Ran(s.runs, id)
  }

  ghost predicate Inv(s: Sys) {
    && Sorted(s.q.ts) && Distinct(s.q.ts)
    && (forall id | id in s.added :: s.added[id].id == id)
    && Scheduled(s.added, s.runs) && Conserved(s)
    && forall i | 0 <= i < |s.runs| :: s.runs[i].now <= s.clock
  }

  lemma InIds(ts: seq<Rec>, x: Rec)
    requires x in ts
    ensures x.id in Ids(ts)
  {
    var i :| 0 <= i < |ts| && ts[i] == x;
    assert ts[i].id == x.id;
  }

  lemma {:induction false} WithAddsGives(added: map<nat, Rec>, adds: seq<Adding>)
    requires forall i | 0 <= i < |adds| :: adds[i].r.id !in added
    requires forall i, j | 0 <= i < j < |adds| :: adds[i].r.id != adds[j].r.id
    ensures var m := WithAdds(added, adds);
      && (forall id | id in added :: id in m && m[id] == added[id])
      && (forall i | 0 <= i < |adds| :: adds[i].r.id in m && m[adds[i].r.id] == adds[i].r)
      && (forall id | id in m :: id in added || exists i :: 0 <= i < |adds| && adds[i].r.id == id)
    decreases |adds|
  {
    if adds == [] {
    } else {
      var rest, added1 := adds[1..], added[adds[0].r.id := adds[0].r];
      assert forall i | 0 <= i < |rest| :: rest[i] == adds[i + 1];
      WithAddsGives(added1, rest);
      var m := WithAdds(added, adds);
      forall i | 0 <= i < |adds| ensures adds[i].r.id in m && m[adds[i].r.id] == adds[i].r {
        if i == 0 { assert adds[0].r.id in added1; } else { assert rest[i - 1] == adds[i]; }
      }
      forall id | id in m && id !in added ensures exists i :: 0 <= i < |adds| && adds[i].r.id == id {
        if id == adds[0].r.id {
          assert 0 < |adds| && adds[0].r.id == id;
        } else {
          var i :| 0 <= i < |rest| && rest[i].r.id == id;
          assert adds[i + 1].r.id == id;
        }
      }
    }
  }

  /** After a batch of runs of distinct timers, those are due again one interval later, and the
      others as before. */
  lemma {:induction false} NextDueAfter(r: Rec, runs: seq<Run>, expired: seq<Rec>, now: int)
    requires Distinct(expired)
    ensures NextDue(r, runs + RunsOf(expired, now))
         == if r.id in Ids(expired) then now + r.interval else NextDue(r, runs)
    ensures Ran(runs + RunsOf(expired, now), r.id) <==> Ran(runs, r.id) || r.id in Ids(expired)
    decreases |expired|
  {
    var all := runs + RunsOf(expired, now);
    if expired == [] {
      assert all == runs;
    } else {
      var n := |expired| - 1;
      var some := runs + RunsOf(expired[..n], now);
      var last := Run(expired[n].id, expired[n].when, now);
      assert all == some + [last] && all[..|all| - 1] == some;
      NextDueAfter(r, runs, expired[..n], now);
      RanSnoc(some, last, r.id);
      assert expired == expired[..n] + [expired[n]];
      IdsFollow(expired[..n], expired, expired[n]);
    }
  }

  lemma RanSnoc(runs: seq<Run>, last: Run, id: nat)
    ensures Ran(runs + [last], id) <==> Ran(runs, id) || last.id == id
  {
    var all := runs + [last];
    if last.id == id { assert all[|runs|].id == id; }
    if i :| 0 <= i < |runs| && runs[i].id == id { assert all[i].id == id; }
  }

  lemma {:induction false} NeverRanDue(r: Rec, runs: seq<Run>)
    requires !Ran(runs, r.id)
    ensures NextDue(r, runs) == r.when
  {
    if runs == [] {
    } else {
      var n := |runs| - 1;
      assert runs[n].id != r.id;
      assert forall i | 0 <= i < n :: runs[..n][i] == runs[i];
      NeverRanDue(r, runs[..n]);
    }
  }

  lemma ConservedAfterAdd(s: Sys, r: Rec, ts: seq<Rec>)
    requires Inv(s) && r.id !in s.added
    requires forall x :: x in ts <==> x == r || x in s.q.ts
    ensures Conserved(s.(q := s.q.(ts := ts), added := s.added[r.id := r]))
  {
    hide NextDue, Ran, Scheduled;
    NoneExpired(s, r.id, 0);
    NeverRanDue(r, s.runs);
    IdsFollow(s.q.ts, ts, r);
  }

  lemma ScheduledMore(added: map<nat, Rec>, more: map<nat, Rec>, runs: seq<Run>)
    requires Scheduled(added, runs) && forall id | id in added :: id in more && more[id] == added[id]
    ensures Scheduled(more, runs)
  {
    hide NextDue, Ran;
  }

  lemma AddTimerKeeps(s: Sys, r: Rec, lag: nat)
    requires Inv(s) && CanDo(s, AddTimer(r, lag))
    ensures Inv(Do(s, AddTimer(r, lag)))
  {
    hide Insert, NextDue, Ran, Sorted, Distinct, Scheduled;
    ScheduledMore(s.added, s.added[r.id := r], s.runs);
    NoneExpired(s, r.id, 0);
    NewIsUnlike(s, r);
    InsertKeeps(s.q.ts, r);
    ConservedAfterAdd(s, r, Insert(s.q.ts, r));
  }

  /** The runs of a firing are due, come in order, and repeat only repeating timers. */
  lemma ScheduledAfter(s: Sys, added: map<nat, Rec>)
    requires Inv(s)
    requires forall id | id in s.added :: id in added && added[id] == s.added[id]
    ensures Scheduled(added, s.runs + RunsOf(s.q.ts[..ExpiredCount(s.q.ts, s.clock)], s.clock))
  {
    hide NextDue, ExpiredCount, Ran, Conserved;
    var now := s.clock;
    var expired := s.q.ts[..ExpiredCount(s.q.ts, now)];
    var all := s.runs + RunsOf(expired, now);
    forall i | 0 <= i < |all|
      ensures all[i].id in added && all[i].due == NextDue(added[all[i].id], all[..i]) && all[i].due <= all[i].now
      ensures Ran(all[..i], all[i].id) ==> added[all[i].id].repeat
    {
      if i < |s.runs| {
        assert all[i] == s.runs[i] && all[..i] == s.runs[..i];
      } else {
        ScheduledNew(s, i - |s.runs|);
        assert all[..i] == s.runs + RunsOf(expired[..i - |s.runs|], now);
      }
    }
    InOrder(s.runs, RunsOf(expired, now), now);
  }

  lemma InOrder(before: seq<Run>, after: seq<Run>, now: int)
    requires forall i, j | 0 <= i <= j < |before| :: before[i].now <= before[j].now
    requires forall i | 0 <= i < |before| :: before[i].now <= now
    requires forall i | 0 <= i < |after| :: after[i].now == now
    ensures var all := before + after; forall i, j | 0 <= i <= j < |all| :: all[i].now <= all[j].now
  {
  }

  lemma ScheduledNew(s: Sys, k: nat)
    requires Inv(s) && k < ExpiredCount(s.q.ts, s.clock)
    ensures var x := s.q.ts[k];
      var before := s.runs + RunsOf(s.q.ts[..ExpiredCount(s.q.ts, s.clock)][..k], s.clock);
      && x.id in s.added && x.when <= s.clock && x.when == NextDue(s.added[x.id], before)
      && (Ran(before, x.id) ==> s.added[x.id].repeat)
  {
    hide NextDue, ExpiredCount, Ran;
    var x, expired := s.q.ts[k], s.q.ts[..ExpiredCount(s.q.ts, s.clock)][..k];
    ExpiredSplits(s.q.ts, s.clock);
    assert x in s.q.ts;
    InIds(s.q.ts, x);
    NextDueAfter(s.added[x.id], s.runs, expired, s.clock);
    forall i | 0 <= i < |expired| ensures expired[i].id != x.id {
      assert expired[i] == s.q.ts[i];
    }
  }

  /** Whether a timer of the set has expired can be told from its address. */
  lemma ExpiredIds(ts: seq<Rec>, now: int, x: Rec)
    requires Sorted(ts) && Distinct(ts) && x in ts
    ensures x.id in Ids(ts[..ExpiredCount(ts, now)]) <==> x.when <= now
  {
    hide ExpiredCount;
    var n := ExpiredCount(ts, now);
    ExpiredSplits(ts, now);
    var i :| 0 <= i < |ts| && ts[i] == x;
    if i < n { assert ts[..n][i].id == x.id; }
    if j :| 0 <= j < n && ts[..n][j].id == x.id { assert ts[j].id == x.id; }
  }

  lemma NoneExpired(s: Sys, id: nat, n: nat)
    requires Inv(s) && id !in s.added && n <= |s.q.ts|
    ensures id !in Ids(s.q.ts[..n]) && id !in Ids(s.q.ts) && !Ran(s.runs, id)
  {
    forall i | 0 <= i < |s.q.ts| ensures s.q.ts[i].id != id {
      assert s.q.ts[i] in s.q.ts;
    }
  }

  ghost predicate IsAdded(adds: seq<Adding>, x: Rec) { exists i :: 0 <= i < |adds| && adds[i].r == x }

  /** What `HandleReadKeeps` says is in the set after a firing. */
  ghost predicate Remains(ts: seq<Rec>, now: int, adds: seq<Adding>, x: Rec) {
    || (x in ts && x.when > now)
    || IsAdded(adds, x)
    || exists r :: r in ts && r.when <= now && r.repeat && x == Restarted(r, now)
  }

  /** A timer left in the set is at the time it is next due. */
  lemma RemainsDue(s: Sys, adds: seq<Adding>, added: map<nat, Rec>, x: Rec)
    requires Inv(s) && Remains(s.q.ts, s.clock, adds, x)
    requires forall i | 0 <= i < |adds| :: adds[i].r.id !in s.added
    requires forall id | id in s.added :: id in added && added[id] == s.added[id]
    requires forall i | 0 <= i < |adds| :: adds[i].r.id in added && added[adds[i].r.id] == adds[i].r
    ensures var expired := s.q.ts[..ExpiredCount(s.q.ts, s.clock)];
      x.id in added && x == added[x.id].(when := NextDue(added[x.id], s.runs + RunsOf(expired, s.clock)))
  {
    hide NextDue, ExpiredCount, Ran;
    var now, n := s.clock, ExpiredCount(s.q.ts, s.clock);
    if IsAdded(adds, x) {
      NoneExpired(s, x.id, n);
      NeverRanDue(x, s.runs);
      NextDueAfter(x, s.runs, s.q.ts[..n], now);
    } else {
      var y := if x in s.q.ts && x.when > now then x
               else var r :| r in s.q.ts && r.when <= now && r.repeat && x == Restarted(r, now); r;
      ExpiredIds(s.q.ts, now, y);
      NextDueAfter(added[y.id], s.runs, s.q.ts[..n], now);
    }
  }

  /** A timer is in the set after a firing when it repeats or has not run. */
  lemma RemainsIds(s: Sys, adds: seq<Adding>, added: map<nat, Rec>, ts: seq<Rec>, id: nat)
    requires Inv(s) && id in added
    requires forall i | 0 <= i < |adds| :: adds[i].r.id !in s.added
    requires forall k | k in s.added :: k in added && added[k] == s.added[k]
    requires forall i | 0 <= i < |adds| :: adds[i].r.id in added && added[adds[i].r.id] == adds[i].r
    requires forall k | k in added :: k in s.added || exists i :: 0 <= i < |adds| && adds[i].r.id == k
    requires forall x :: x in ts <==> Remains(s.q.ts, s.clock, adds, x)
    ensures var expired := s.q.ts[..ExpiredCount(s.q.ts, s.clock)];
      id in Ids(ts) <==> added[id].repeat || !Ran(s.runs + RunsOf(expired, s.clock), id)
  {
    hide NextDue, ExpiredCount, Ran;
    var now, n := s.clock, ExpiredCount(s.q.ts, s.clock);
    assert added[id].id == id;
    NextDueAfter(added[id], s.runs, s.q.ts[..n], now);
    if id !in s.added {
      NoneExpired(s, id, n);
      var i :| 0 <= i < |adds| && adds[i].r.id == id;
      assert Remains(s.q.ts, now, adds, adds[i].r);
      InIds(ts, adds[i].r);
    } else if id in Ids(s.q.ts) {
      var k :| 0 <= k < |s.q.ts| && s.q.ts[k].id == id;
      var x := s.q.ts[k];
      ExpiredIds(s.q.ts, now, x);
      StaysWhen(s, adds, ts, x);
    } else {
      GoneStays(s, adds, ts, id);
      forall k | 0 <= k < n ensures s.q.ts[..n][k].id != id {
        assert s.q.ts[..n][k] == s.q.ts[k];
      }
    }
  }

  lemma StaysWhen(s: Sys, adds: seq<Adding>, ts: seq<Rec>, x: Rec)
    requires Inv(s) && x in s.q.ts
    requires forall i | 0 <= i < |adds| :: adds[i].r.id !in s.added
    requires forall y :: y in ts <==> Remains(s.q.ts, s.clock, adds, y)
    ensures x.id in Ids(ts) <==> x.when > s.clock || x.repeat
  {
    hide NextDue;
    if x.when > s.clock {
      assert Remains(s.q.ts, s.clock, adds, x);
      InIds(ts, x);
    } else if x.repeat {
      assert Remains(s.q.ts, s.clock, adds, Restarted(x, s.clock));
      InIds(ts, Restarted(x, s.clock));
    }
    forall i | 0 <= i < |ts| && ts[i].id == x.id ensures x.when > s.clock || x.repeat {
      assert ts[i] in ts && x.id in s.added;
      StaysOnly(s.q.ts, s.clock, adds, x, ts[i]);
    }
  }

  lemma StaysOnly(ts: seq<Rec>, now: int, adds: seq<Adding>, x: Rec, y: Rec)
    requires Distinct(ts) && x in ts && y.id == x.id && !IsAdded(adds, y) && Remains(ts, now, adds, y)
    ensures x.when > now || x.repeat
  {
    var z := if y in ts && y.when > now then y
             else var r :| r in ts && r.when <= now && r.repeat && y == Restarted(r, now); r;
    SameId(ts, x, z);
  }

  lemma SameId(ts: seq<Rec>, x: Rec, y: Rec)
    requires Distinct(ts) && x in ts && y in ts && x.id == y.id
    ensures x == y
  {
    var i :| 0 <= i < |ts| && ts[i] == x;
    var j :| 0 <= j < |ts| && ts[j] == y;
    assert i == j;
  }

  lemma GoneStays(s: Sys, adds: seq<Adding>, ts: seq<Rec>, id: nat)
    requires Inv(s) && id in s.added && id !in Ids(s.q.ts)
    requires forall i | 0 <= i < |adds| :: adds[i].r.id !in s.added
    requires forall y :: y in ts <==> Remains(s.q.ts, s.clock, adds, y)
    ensures id !in Ids(ts)
  {
    forall i | 0 <= i < |ts| ensures ts[i].id != id {
      var y := ts[i];
      assert y in ts;
      RemainsFrom(s.q.ts, s.clock, adds, y);
    }
  }

  lemma RemainsFrom(ts: seq<Rec>, now: int, adds: seq<Adding>, y: Rec)
    requires Remains(ts, now, adds, y)
    ensures IsAdded(adds, y) || y.id in Ids(ts)
  {
    if !IsAdded(adds, y) {
      var z := if y in ts && y.when > now then y
               else var r :| r in ts && r.when <= now && r.repeat && y == Restarted(r, now); r;
      InIds(ts, z);
    }
  }

  lemma ConservedAfterHandle(s: Sys, adds: seq<Adding>, s1: Sys)
    requires Inv(s) && s1.runs == s.runs + RunsOf(s.q.ts[..ExpiredCount(s.q.ts, s.clock)], s.clock)
    requires forall i | 0 <= i < |adds| :: adds[i].r.id !in s.added
    requires forall k | k in s.added :: k in s1.added && s1.added[k] == s.added[k]
    requires forall i | 0 <= i < |adds| :: adds[i].r.id in s1.added && s1.added[adds[i].r.id] == adds[i].r
    requires forall k | k in s1.added :: k in s.added || exists i :: 0 <= i < |adds| && adds[i].r.id == k
    requires forall x :: x in s1.q.ts <==> Remains(s.q.ts, s.clock, adds, x)
    ensures Conserved(s1)
  {
    hide NextDue, Ran, ExpiredCount, Remains, Inv, IsAdded;
    forall x | x in s1.q.ts
      ensures x.id in s1.added && x == s1.added[x.id].(when := NextDue(s1.added[x.id], s1.runs))
    {
      RemainsDue(s, adds, s1.added, x);
    }
    forall id | id in s1.added ensures id in Ids(s1.q.ts) <==> s1.added[id].repeat || !Ran(s1.runs, id) {
      RemainsIds(s, adds, s1.added, s1.q.ts, id);
    }
  }

  lemma NewIsFresh(s: Sys, adds: seq<Adding>)
    requires Inv(s)
    requires forall i | 0 <= i < |adds| :: adds[i].r.id !in s.added && NewAddress(s.q.ts, adds[i].r)
    requires forall i, j | 0 <= i < j < |adds| :: Unlike(adds[i].r, adds[j].r)
    ensures FreshAdds(s.q.ts, adds)
  {
    hide Inv;
    forall i | 0 <= i < |adds| ensures UnlikeAll(adds[i].r, s.q.ts) { NewIsUnlike(s, adds[i].r); }
  }

  lemma NewIsUnlike(s: Sys, r: Rec)
    requires Inv(s) && r.id !in s.added && NewAddress(s.q.ts, r)
    ensures UnlikeAll(r, s.q.ts)
  {
    NoneExpired(s, r.id, 0);
    forall i | 0 <= i < |s.q.ts| ensures s.q.ts[i].id != r.id { assert s.q.ts[i].id in Ids(s.q.ts); }
  }

  lemma HandleKeeps(s: Sys, step: Step)
    requires Inv(s) && step.Handle? && CanDo(s, step)
    ensures Inv(Do(s, step))
  {
    hide NextDue, Ran, HandleRead, ExpiredCount, WithAdds, Conserved, Scheduled, Sorted, Distinct, Remains;
    var s1 := Do(s, step);
    NewIsFresh(s, step.adds);
    HandleLeaves(s, step);
    WithAddsGives(s.added, step.adds);
    ScheduledAfter(s, s1.added);
    ConservedAfterHandle(s, step.adds, s1);
  }

  lemma HandleLeaves(s: Sys, step: Step)
    requires Inv(s) && step.Handle? && CanDo(s, step)
    ensures var ts := Do(s, step).q.ts;
      Sorted(ts) && Distinct(ts) && forall x :: x in ts <==> Remains(s.q.ts, s.clock, step.adds, x)
  {
    hide NextDue, Ran, HandleRead, ExpiredCount, WithAdds, Conserved, Scheduled, Sorted, Distinct;
    NewIsFresh(s, step.adds);
    HandleReadKeeps(s.q, s.clock, step.readAt, step.adds, step.moments);
  }

  lemma StepKeeps(s: Sys, step: Step)
    requires Inv(s) && CanDo(s, step)
    ensures Inv(Do(s, step)) && Do(s, step).clock >= s.clock
  {
    hide HandleRead, WithAdds, NextDue, Ran, Insert;
    match step
    case Tick(_) =>
    case PollFires =>
    case AddTimer(r, lag) => AddTimerKeeps(s, r, lag);
    case Handle(_, _, _, _) => HandleKeeps(s, step);
  }

  /** Over every run the set agrees with the history of additions and callback runs. */
  lemma {:induction false} EveryRun(clock: int, steps: seq<Step>)
    ensures RunSteps(Start(clock), steps).Some? ==> Inv(RunSteps(Start(clock), steps).value)
  {
    hide Do, CanDo;
    if steps == [] {
    } else {
      var n := |steps| - 1;
      EveryRun(clock, steps[..n]);
      if RunSteps(Start(clock), steps[..n]).Some? && RunSteps(Start(clock), steps).Some? {
        StepKeeps(RunSteps(Start(clock), steps[..n]).value, steps[n]);
      }
    }
  }

  // What the invariant means for the user of a timer

  lemma {:induction false} DueNotEarly(r: Rec, runs: seq<Run>)
    requires forall j | 0 <= j < |runs| :: runs[j].id == r.id ==> runs[j].now >= r.when
    ensures NextDue(r, runs) >= r.when
  {
    if runs == [] {
    } else {
      var n := |runs| - 1;
      assert forall j | 0 <= j < n :: runs[..n][j] == runs[j];
      DueNotEarly(r, runs[..n]);
    }
  }

  /** No timer ever runs before the time it was added for. */
  lemma {:induction false} NeverEarly(s: Sys, i: nat)
    requires Inv(s) && i < |s.runs|
    ensures s.runs[i].id in s.added && s.added[s.runs[i].id].when <= s.runs[i].now
    decreases i
  {
    hide NextDue;
    var r := s.added[s.runs[i].id];
    forall j | 0 <= j < i && s.runs[..i][j].id == r.id ensures s.runs[..i][j].now >= r.when {
      NeverEarly(s, j);
    }
    DueNotEarly(r, s.runs[..i]);
  }

  /** A one-shot timer runs at most once. */
  lemma OneShotOnce(s: Sys, i: nat, j: nat)
    requires Inv(s) && i < j < |s.runs| && s.runs[i].id == s.runs[j].id
    ensures s.added[s.runs[i].id].repeat
  {
    hide NextDue;
    assert s.runs[..j][i].id == s.runs[i].id;
  }

  /** After a run at `now`, a timer is due no earlier than one interval later. */
  lemma {:induction false} DueAfterRun(r: Rec, runs: seq<Run>, i: nat)
    requires i < |runs| && runs[i].id == r.id
    requires forall j, k | 0 <= j <= k < |runs| :: runs[j].now <= runs[k].now
    ensures NextDue(r, runs) >= runs[i].now + r.interval
    decreases |runs|
  {
    var n := |runs| - 1;
    if runs[n].id == r.id {
    } else {
      assert runs[..n][i] == runs[i];
      DueAfterRun(r, runs[..n], i);
    }
  }

  /** Two runs of a repeating timer are at least one interval apart. */
  lemma RunsApart(s: Sys, i: nat, j: nat)
    requires Inv(s) && i < j < |s.runs| && s.runs[i].id == s.runs[j].id
    ensures s.runs[j].now >= s.runs[i].now + s.added[s.runs[i].id].interval
  {
    hide NextDue;
    assert s.runs[..j][i] == s.runs[i];
    DueAfterRun(s.added[s.runs[i].id], s.runs[..j], i);
  }

  /** Over every run: no timer runs before the time it was added for, a one-shot timer runs at most
      once, and two runs of a repeating one are at least an interval apart. */
  lemma RunsAreExact(clock: int, steps: seq<Step>, i: nat, j: nat)
    requires RunSteps(Start(clock), steps).Some? && i < |RunSteps(Start(clock), steps).value.runs|
    ensures var s := RunSteps(Start(clock), steps).value;
      var a := s.runs[i];
      && a.id in s.added && s.added[a.id].when <= a.now
      && (i < j < |s.runs| && s.runs[j].id == a.id ==>
            s.added[a.id].repeat && s.runs[j].now >= a.now + s.added[a.id].interval)
  {
    EveryRun(clock, steps);
    hide RunSteps, Inv;
    var s := RunSteps(Start(clock), steps).value;
    NeverEarly(s, i);
    if i < j < |s.runs| && s.runs[j].id == s.runs[i].id {
      OneShotOnce(s, i, j);
      RunsApart(s, i, j);
    }
  }

  // No timer is lost over whole runs

  /** The timerfd covers the set in every state of a run. */
  ghost predicate AlwaysCovered(s: Sys, steps: seq<Step>)
    requires RunSteps(s, steps).Some?
  {
    Covered(RunSteps(s, steps).value.q) && (steps == [] || AlwaysCovered(s, steps[..|steps| - 1]))
  }

  predicate IsLate(s: Sys, step: Step) { step.Handle? && LateFire(s.q, s.clock, step.readAt) }

  /** No firing of a run is a late one. */
  predicate NoneLate(s: Sys, steps: seq<Step>)
    requires RunSteps(s, steps).Some?
  {
    steps == [] ||
    var n := |steps| - 1;
    NoneLate(s, steps[..n]) && !IsLate(RunSteps(s, steps[..n]).value, steps[n])
  }

  lemma StepCoversExactly(s: Sys, step: Step)
    requires Covered(s.q) && CanDo(s, step)
    ensures Covered(Do(s, step).q) <==> !IsLate(s, step)
  {
    hide HandleRead, WithAdds, Insert;
    match step
    case Tick(_) =>
    case PollFires =>
    case AddTimer(r, lag) => AddCovers(s.q, r, s.clock, lag);
    case Handle(readAt, adds, moments, _) => HandleReadCoversExactly(s.q, s.clock, readAt, adds, moments);
  }

  /** A run never loses a timer exactly when no firing of it is a late one. */
  lemma {:induction false} AlwaysCoveredExactly(clock: int, steps: seq<Step>)
    requires RunSteps(Start(clock), steps).Some?
    ensures AlwaysCovered(Start(clock), steps) <==> NoneLate(Start(clock), steps)
    decreases |steps|
  {
    hide Do, CanDo, Covered;
    if steps == [] {
      StartCovered(clock);
    } else {
      var n := |steps| - 1;
      AlwaysCoveredExactly(clock, steps[..n]);
      var before := RunSteps(Start(clock), steps[..n]).value;
      if AlwaysCovered(Start(clock), steps[..n]) {
        StepCoversExactly(before, steps[n]);
      }
    }
  }

  lemma StartCovered(clock: int)
    ensures Covered(Start(clock).q)
  {
  }

  /** Every timer is covered, an armed timerfd has a timer, and the timerfd on the active list has
      fired. */
  ghost predicate Watched(s: Sys) {
    && Covered(s.q) && (s.q.fd.Armed? <==> s.q.ts != [])
    && (s.active ==> s.q.fd.Fired(s.clock))
  }

  /** A timer already due is added between `epoll_wait` reporting the timerfd and its handling. */
  predicate AddsDueWhileActive(s: Sys, step: Step) {
    step.AddTimer? && s.active && step.r.when < s.clock
  }

  lemma {:induction false} AddAllArms(q: Queue, adds: seq<Adding>)
    requires q.fd.Armed? <==> q.ts != []
    ensures var q1 := AddAll(q, adds); q1.fd.Armed? <==> q1.ts != []
    decreases |adds|
  {
    if adds == [] {
    } else {
      AddAllArms(Add(q, adds[0].r, adds[0].now, adds[0].lag), adds[1..]);
    }
  }

  lemma {:induction false} ResetArms(q: Queue, expired: seq<Rec>, now: int, moments: seq<Moment>)
    requires |moments| == |expired| && (q.ts == [] ==> q.fd.Disarmed?) && expired != []
    ensures var q1 := Reset(q, expired, now, moments); q1.fd.Armed? <==> q1.ts != []
    decreases |expired|
  {
    if |expired| == 1 {
    } else {
      ResetArms(ResetOne(q, expired[0], now, moments[0]), expired[1..], now, moments[1..]);
    }
  }

  lemma {:induction false} AddAllIdle(q: Queue, adds: seq<Adding>)
    requires q.ts == [] ==> q.fd.Disarmed?
    ensures var q1 := AddAll(q, adds); q1.ts == [] ==> q1.fd.Disarmed?
    decreases |adds|
  {
    if adds == [] {
    } else {
      AddAllIdle(Add(q, adds[0].r, adds[0].now, adds[0].lag), adds[1..]);
    }
  }

  /** Handling the firing of a watched queue finds an expired timer, and leaves the queue watched. */
  lemma HandleWatched(s: Sys, step: Step)
    requires Watched(s) && step.Handle? && CanDo(s, step)
    ensures ExpiredCount(s.q.ts, s.clock) > 0
    ensures Watched(Do(s, step))
  {
    hide Add, Reset, AddAll, WithAdds;
    var n := ExpiredCount(s.q.ts, s.clock);
    assert s.q.ts[0].when <= s.clock;
    var q0 := Queue(s.q.ts[n..], Consumed(s.q.fd, step.readAt));
    AddAllIdle(q0, step.adds);
    ResetArms(AddAll(q0, step.adds), s.q.ts[..n], s.clock, step.moments);
    ResetCovers(AddAll(q0, step.adds), s.q.ts[..n], s.clock, step.moments);
  }

  /** A step keeps the queue watched unless it adds a timer already due at the wrong moment. */
  lemma StepWatched(s: Sys, step: Step)
    requires Watched(s) && CanDo(s, step) && !AddsDueWhileActive(s, step)
    ensures Watched(Do(s, step))
  {
    hide HandleRead, WithAdds;
    match step
    case Tick(_) =>
    case PollFires =>
    case AddTimer(r, lag) =>
      AddCovers(s.q, r, s.clock, lag);
    case Handle(_, _, _, _) => HandleWatched(s, step);
  }

  /** The run never adds a timer already due at the wrong moment. */
  predicate Timely(s: Sys, steps: seq<Step>) {
    steps == [] ||
    var n := |steps| - 1;
    && Timely(s, steps[..n])
    && (RunSteps(s, steps[..n]).Some? ==> !AddsDueWhileActive(RunSteps(s, steps[..n]).value, steps[n]))
  }

  /** Over every timely run no timer is ever lost: whatever is in the set, the timerfd is armed for it
      in time, and each firing finds an expired timer. */
  lemma {:induction false} NoTimerLost(clock: int, steps: seq<Step>)
    requires Timely(Start(clock), steps)
    ensures RunSteps(Start(clock), steps).Some? ==>
      var s := RunSteps(Start(clock), steps).value;
      Watched(s) && (s.active ==> ExpiredCount(s.q.ts, s.clock) > 0)
  {
    hide Do, CanDo;
    if steps == [] {
    } else {
      var n := |steps| - 1;
      NoTimerLost(clock, steps[..n]);
      if RunSteps(Start(clock), steps[..n]).Some? && RunSteps(Start(clock), steps).Some? {
        StepWatched(RunSteps(Start(clock), steps[..n]).value, steps[n]);
      }
    }
  }

  lemma Then(s0: Sys, steps: seq<Step>, s: Sys, step: Step) returns (all: seq<Step>, s1: Sys)
    requires RunSteps(s0, steps) == Some(s) && CanDo(s, step)
    ensures all == steps + [step] && s1 == Do(s, step) && RunSteps(s0, all) == Some(s1)
  {
    all, s1 := steps + [step], Do(s, step);
    assert all[..|all| - 1] == steps;
  }

  /** A timer of a covered queue comes to run: time passes, the poller reports the timerfd, and its handler runs the
      timer, for the time it was due. */
  lemma CoveredRuns(s: Sys, x: Rec) returns (steps: seq<Step>, s': Sys)
    requires Inv(s) && Covered(s.q) && x in s.q.ts
    ensures forall i | 0 <= i < |steps| :: !steps[i].AddTimer? && (steps[i].Handle? ==> steps[i].adds == [])
    ensures RunSteps(s, steps) == Some(s')
    ensures exists i | |s.runs| <= i < |s'.runs| :: s'.runs[i].id == x.id && s'.runs[i].due == x.when
  {
    hide Inv, Covered, HandleRead, RunSteps, ExpiredCount, Sorted, Distinct;
    CoveredIsArmed(s);
    var t := Max(Max(s.clock, x.when), s.q.fd.deadline);
    NoneYet(s);
    var p1, s1 := Then(s, [], s, Tick(t));
    var p2, s2 := p1, s1;
    if !s.active { p2, s2 := Then(s, p1, s1, PollFires); }
    var n := ExpiredCount(s.q.ts, t);
    steps, s' := Then(s, p2, s2, Handle(t, [], seq(n, _ => Moment(t, 0)), t));
    var k := ExpiredHas(s, t, x);
    assert s'.runs[|s.runs| + k].id == x.id;
  }

  lemma CoveredIsArmed(s: Sys)
    requires Covered(s.q) && s.q.ts != []
    ensures s.q.fd.Armed?
  {
  }

  lemma NoneYet(s: Sys)
    ensures RunSteps(s, []) == Some(s)
  {
  }

  lemma ExpiredHas(s: Sys, now: int, x: Rec) returns (k: nat)
    requires Inv(s) && x in s.q.ts && x.when <= now
    ensures k < ExpiredCount(s.q.ts, now) && s.q.ts[k] == x
  {
    hide Conserved, Scheduled;
    ExpiredSplits(s.q.ts, now);
    k :| 0 <= k < |s.q.ts| && s.q.ts[k] == x;
  }

  const FIRST := Rec(1000, 0, 0, 0, false)
  const OVERDUE := Rec(900, 1, 1, 0, false)
  const LOST := Rec(1260, 0, 2, 0, false)

  lemma FirstFires() returns (steps: seq<Step>)
    ensures RunSteps(Start(0), steps)
         == Some(Sys(Queue([FIRST], Armed(1000, 0, 0)), 1000, true, map[FIRST.id := FIRST], []))
  {
    var s0 := Start(0);
    assert RunSteps(s0, []) == Some(s0);
    hide RunSteps, Timely;
    var p1, s1 := Then(s0, [], s0, AddTimer(FIRST, 0));
    var p2, s2 := Then(s0, p1, s1, Tick(1000));
    var s3;
    steps, s3 := Then(s0, p2, s2, PollFires);
    assert Insert([], FIRST) == [FIRST];
    assert s3.added == map[FIRST.id := FIRST];
  }

  /** The timerfd fires for FIRST, and OVERDUE is added before that is handled: both run, and the
      timerfd stays armed with an empty set. */
  lemma LeftoverArming() returns (steps: seq<Step>)
    ensures RunSteps(Start(0), steps).Some?
    ensures var s := RunSteps(Start(0), steps).value;
      s.q == Queue([], Armed(1100, 1000, 0)) && s.clock == 1010 && !s.active && LOST.id !in s.added
  {
    OverdueAdded();
    BothRun();
    hide RunSteps, Timely, HandleRead, ExpiredCount, Add;
    var s0 := Start(0);
    var p3 := FirstFires();
    var p4, s4 := Then(s0, p3, RunSteps(s0, p3).value, AddTimer(OVERDUE, 0));
    var s5;
    steps, s5 := Then(s0, p4, s4, Handle(1010, [], [Moment(1010, 0), Moment(1010, 0)], 1010));
    assert s5.q == Queue([], Armed(1100, 1000, 0));
  }

  lemma OverdueAdded()
    ensures Add(Queue([FIRST], Armed(1000, 0, 0)), OVERDUE, 1000, 0)
         == Queue([OVERDUE, FIRST], Armed(1100, 1000, 0))
  {
  }

  lemma BothRun()
    ensures ExpiredCount([OVERDUE, FIRST], 1000) == 2
    ensures HandleRead(Queue([OVERDUE, FIRST], Armed(1100, 1000, 0)), 1000, 1010, [],
                       [Moment(1010, 0), Moment(1010, 0)]) == Queue([], Armed(1100, 1000, 0))
  {
    assert ExpiredCount([FIRST], 1000) == 1;
    var q, m := Queue([], Armed(1100, 1000, 0)), Moment(1010, 0);
    assert Reset(q, [], 1000, []) == q;
    assert [FIRST][1..] == [] && [m][1..] == [] && ResetOne(q, FIRST, 1000, m) == q;
    assert Reset(q, [FIRST], 1000, [m]) == q;
    assert [OVERDUE, FIRST][1..] == [FIRST] && [m, m][1..] == [m] && ResetOne(q, OVERDUE, 1000, m) == q;
    assert Reset(q, [OVERDUE, FIRST], 1000, [m, m]) == q;
    assert [OVERDUE, FIRST][2..] == [] && [OVERDUE, FIRST][..2] == [OVERDUE, FIRST];
  }

  /** Without that guard a timer can be lost.  The leftover arming is reported as a firing; LOST is
      added, and its own firing is consumed just before it counts as expired. */
  lemma LossExample()
    ensures exists steps ::
      && RunSteps(Start(0), steps).Some?
      && RunSteps(Start(0), steps).value.q == Queue([LOST], Disarmed)
  {
    hide RunSteps, Timely;
    var s0 := Start(0);
    var p5 := LeftoverArming();
    var p6, s6 := Then(s0, p5, RunSteps(s0, p5).value, Tick(1100));
    var p7, s7 := Then(s0, p6, s6, PollFires);
    var p8, s8 := Then(s0, p7, s7, AddTimer(LOST, 0));
    var p9, s9 := Then(s0, p8, s8, Tick(1259));
    assert s9.q == Queue([LOST], Armed(1260, 1100, 0));
    var p10, s10 := Then(s0, p9, s9, Handle(1260, [], [], 1260));
    assert RunSteps(s0, p10).Some?;
  }
}

module TimerQueues {
  import opened TimerSpec

  /** `Timestamp::invalid`. */
  const INVALID := 0

  class Timer {
    /** Where the timer is in memory: the second half of its place in the ordered set. */
    const addr: nat
    const interval: nat
    const repeat: bool
    var expiration: int
    /** Tells this timer from earlier ones at the same address. */
    ghost const id: nat

    constructor (addr: nat, when: int, interval: nat, ghost id: nat)
      ensures this.addr == addr && this.id == id && this.interval == interval && repeat == (interval > 0)
      ensures expiration == when
    {
      this.addr, this.interval, repeat, this.id := addr, interval, interval > 0, id;
      expiration := when;
    }

    method Restart(now: int)
      modifies this
      ensures expiration == if repeat then now + interval else INVALID
    {
      if repeat { expiration := now + interval; } else { expiration := INVALID; }
    }
  }

  datatype Entry = Entry(when: int, timer: Timer) {
    ghost function View(): Rec { Rec(when, timer.addr, timer.id, timer.interval, timer.repeat) }

    predicate Precedes(that: Entry) {
      when < that.when || (when == that.when && timer.addr < that.timer.addr)
    }
  }

  ghost function ViewOf(es: seq<Entry>): (ts: seq<Rec>)
    ensures |ts| == |es| && forall i | 0 <= i < |es| :: ts[i] == es[i].View()
  {
    seq(|es|, i requires 0 <= i < |es| => es[i].View())
  }

  /** A new entry goes before the first entry it precedes. */
  function InsertEntry(es: seq<Entry>, e: Entry): seq<Entry> {
    if es == [] || e.Precedes(es[0]) then [e] + es else [es[0]] + InsertEntry(es[1..], e)
  }

  lemma {:induction false} InsertEntryMembers(es: seq<Entry>, e: Entry)
    ensures forall x :: x in InsertEntry(es, e) <==> x == e || x in es
  {
    if es == [] || e.Precedes(es[0]) {
    } else {
      InsertEntryMembers(es[1..], e);
      assert es == [es[0]] + es[1..];
    }
  }

  lemma ViewCons(e: Entry, es: seq<Entry>)
    ensures ViewOf([e] + es) == [e.View()] + ViewOf(es)
  {
  }

  lemma {:induction false} InsertEntryView(es: seq<Entry>, e: Entry)
    ensures ViewOf(InsertEntry(es, e)) == Insert(ViewOf(es), e.View())
  {
    if es == [] || e.Precedes(es[0]) {
      ViewCons(e, es);
    } else {
      InsertEntryView(es[1..], e);
      ViewCons(es[0], InsertEntry(es[1..], e));
      assert ViewOf(es)[1..] == ViewOf(es[1..]);
    }
  }

  /** How many entries are before the sentry: `lower_bound`. */
  function CountExpired(es: seq<Entry>, now: int): (n: nat)
    ensures n <= |es|
  {
    if es == [] || es[0].when > now then 0 else 1 + CountExpired(es[1..], now)
  }

  lemma {:induction false} CountExpiredView(es: seq<Entry>, now: int)
    ensures CountExpired(es, now) == ExpiredCount(ViewOf(es), now)
  {
    if es == [] || es[0].when > now {
    } else {
      CountExpiredView(es[1..], now);
      assert ViewOf(es)[1..] == ViewOf(es[1..]);
    }
  }

  /** A timer that a callback creates and adds, and when it does. */
  datatype Created = Created(timer: Timer, now: int, lag: nat) {
    ghost function Adding(): Adding
      reads timer
    {
      TimerSpec.Adding(Entry(timer.expiration, timer).View(), now, lag)
    }
  }

  ghost function Timers(es: seq<Entry>): set<Timer> { set e | e in es :: e.timer }

  ghost function CreatedTimers(adds: seq<Created>): set<Timer> { set a | a in adds :: a.timer }

  ghost function AddingsOf(adds: seq<Created>): (r: seq<Adding>)
    reads CreatedTimers(adds)
    ensures |r| == |adds| && forall i | 0 <= i < |adds| :: r[i] == adds[i].Adding()
  {
    seq(|adds|, i requires 0 <= i < |adds| reads CreatedTimers(adds) => assert adds[i] in adds; adds[i].Adding())
  }

  class TimerQueue {
    var timers: seq<Entry>
    var timerfd: Fd

    /** Every key is its timer's expiration, and the entries are in order, of distinct timers. */
    ghost predicate Valid()
      reads this, Timers(timers)
    {
      && (forall e | e in timers :: e.timer in Timers(timers) && e.when == e.timer.expiration)
      && Sorted(ViewOf(timers)) && Distinct(ViewOf(timers))
    }

    ghost function View(): Queue
      reads this
    {
      Queue(ViewOf(timers), timerfd)
    }

    constructor ()
      ensures Valid() && View() == Queue([], Disarmed)
    {
      timers, timerfd := [], Disarmed;
    }

    method ResetTimerfd(expiration: int, now: int, lag: nat)
      modifies this`timerfd
      ensures timerfd == ArmFor(expiration, now, lag)
    {
      var microSeconds := expiration - now;
      if microSeconds < MIN_DELAY { microSeconds := MIN_DELAY; }
      timerfd := Armed(now + lag + microSeconds, now, lag);
    }

    method Insert(timer: Timer) returns (earliestChanged: bool)
      requires Valid() && UnlikeAll(Entry(timer.expiration, timer).View(), ViewOf(timers))
      modifies this`timers
      ensures Valid()
      ensures ViewOf(timers) == TimerSpec.Insert(old(ViewOf(timers)), Entry(timer.expiration, timer).View())
      ensures earliestChanged == EarliestChanged(old(ViewOf(timers)), Entry(timer.expiration, timer).View())
      ensures Timers(timers) == old(Timers(timers)) + {timer}
    {
      hide TimerSpec.Insert, InsertEntry, Sorted, Distinct, Before;
      var when := timer.expiration;
      earliestChanged := timers == [] || when < timers[0].when;
      ghost var ts := ViewOf(timers);
      InsertEntryView(timers, Entry(when, timer));
      InsertEntryMembers(timers, Entry(when, timer));
      InsertKeeps(ts, Entry(when, timer).View());
      timers := InsertEntry(timers, Entry(when, timer));
    }

    method AddTimerInLoop(timer: Timer, now: int, lag: nat)
      requires Valid() && UnlikeAll(Entry(timer.expiration, timer).View(), ViewOf(timers))
      modifies this
      ensures Valid()
      ensures View() == Add(old(View()), Entry(timer.expiration, timer).View(), now, lag)
      ensures Timers(timers) == old(Timers(timers)) + {timer}
    {
      hide TimerSpec.Insert, Sorted, Distinct, Before;
      var earliestChanged := Insert(timer);
      if earliestChanged {
        ResetTimerfd(timer.expiration, now, lag);
      }
    }

    /** Takes the expired entries out of the set. */
    method GetExpired(now: int) returns (expired: seq<Entry>)
      requires Valid()
      modifies this`timers
      ensures Valid() && old(timers) == expired + timers
      ensures |expired| == ExpiredCount(old(ViewOf(timers)), now)
    {
      var n := CountExpired(timers, now);
      CountExpiredView(timers, now);
      hide TimerSpec.Insert, ExpiredCount, CountExpired;
      SplitKeeps(ViewOf(timers), n);
      expired := timers[..n];
      assert ViewOf(timers[n..]) == ViewOf(timers)[n..];
      timers := timers[n..];
    }

    /** One turn of the loop of `reset`. */
    method ResetOne(entry: Entry, now: int, m: Moment)
      requires Valid() && UnlikeAll(entry.View(), ViewOf(timers))
      modifies this, entry.timer
      ensures Valid()
      ensures View() == TimerSpec.ResetOne(old(View()), entry.View(), now, m)
      ensures SameTimers(old(ViewOf(timers)), ViewOf(timers), entry.View())
    {
      hide TimerSpec.Insert, Before, Sorted;
      NotAmong(timers, entry);
      if entry.timer.repeat {
        entry.timer.Restart(now);
        InsertSame(ViewOf(timers), Entry(entry.timer.expiration, entry.timer).View(), entry.View());
        var _ := Insert(entry.timer);
      }
      if timers != [] {
        assert timers[0] in timers;
        ResetTimerfd(timers[0].timer.expiration, m.now, m.lag);
      }
    }

    /** Puts the repeating timers back, and sets the timerfd after each. */
    method Reset(expired: seq<Entry>, now: int, moments: seq<Moment>)
      requires Valid() && |moments| == |expired|
      requires Apart(ViewOf(timers), ViewOf(expired))
      modifies this, Timers(expired)
      ensures Valid()
      ensures View() == TimerSpec.Reset(old(View()), ViewOf(expired), now, moments)
    {
      hide TimerSpec.Insert, Before, Sorted, TimerSpec.ResetOne;
      var i := 0;
      while i < |expired|
        invariant 0 <= i <= |expired|
        invariant Valid()
        invariant Apart(ViewOf(timers), ViewOf(expired[i..]))
        invariant TimerSpec.Reset(View(), ViewOf(expired[i..]), now, moments[i..])
               == TimerSpec.Reset(old(View()), ViewOf(expired), now, moments)
      {
        assert expired[i] in expired;
        Suffixes(expired, moments, i);
        ghost var q, rest := View(), ViewOf(expired[i..]);
        ResetOne(expired[i], now, moments[i]);
        ApartNext(q.ts, ViewOf(timers), rest);
        i := i + 1;
      }
    }

    /** The callbacks of the expired timers run, and add timers. */
    method RunCallbacks(adds: seq<Created>)
      requires Valid() && FreshAdds(ViewOf(timers), AddingsOf(adds))
      modifies this
      ensures Valid() && View() == AddAll(old(View()), old(AddingsOf(adds)))
    {
      hide TimerSpec.Insert, Before, Sorted, Distinct, Add;
      ghost var addings := AddingsOf(adds);
      var i := 0;
      while i < |adds|
        invariant 0 <= i <= |adds|
        invariant Valid() && FreshAdds(ViewOf(timers), addings[i..])
        invariant AddAll(View(), addings[i..]) == AddAll(old(View()), addings)
        invariant forall k | 0 <= k < |adds| :: addings[k] == adds[k].Adding()
      {
        ghost var rest := addings[i..];
        assert rest[0] == addings[i] && rest[1..] == addings[i + 1..];
        FreshNext(View(), rest);
        AddTimerInLoop(adds[i].timer, adds[i].now, adds[i].lag);
        i := i + 1;
      }
      assert addings[i..] == [];
    }

    /** The timerfd fired: `now` is sampled, the timerfd is read at `readAt`, the callbacks add
        `adds`, and `reset` sets the timerfd at `moments`. */
    method HandleRead(now: int, readAt: int, adds: seq<Created>, moments: seq<Moment>)
      requires Valid() && FreshAdds(ViewOf(timers), AddingsOf(adds))
      requires |moments| == ExpiredCount(ViewOf(timers), now)
      modifies this, Timers(timers)
      ensures Valid()
      ensures View() == TimerSpec.HandleRead(old(View()), now, readAt, old(AddingsOf(adds)), moments)
    {
      hide TimerSpec.Insert, Before, Sorted, Distinct, Add, TimerSpec.Reset, AddAll, ExpiredCount, FreshAdds, Apart;
      ghost var q, addings := View(), AddingsOf(adds);
      if timerfd.Fired(readAt) { timerfd := Disarmed; }
      var expired := GetExpired(now);
      ghost var n := |expired|;
      ViewSplits(expired, timers);
      CallbacksApart(View(), q.ts, n, addings);
      assert AddingsOf(adds) == addings;
      RunCallbacks(adds);
      Reset(expired, now, moments);
    }
  }

  lemma ViewSplits(expired: seq<Entry>, rest: seq<Entry>)
    ensures var ts := ViewOf(expired + rest); ViewOf(expired) == ts[..|expired|] && ViewOf(rest) == ts[|expired|..]
    ensures Timers(expired) <= Timers(expired + rest)
  {
  }

  /** What the callbacks add is fresh for what is left, and apart from what has expired. */
  lemma CallbacksApart(q: Queue, ts: seq<Rec>, n: nat, adds: seq<Adding>)
    requires n <= |ts| && Sorted(ts) && Distinct(ts) && FreshAdds(ts, adds) && q.ts == ts[n..]
    ensures FreshAdds(q.ts, adds) && Apart(AddAll(q, adds).ts, ts[..n])
  {
    hide Sorted, AddAll;
    SplitKeeps(ts, n);
    AddAllKeeps(q, adds);
    ApartAfterAdds(ts, n, AddAll(q, adds).ts, adds);
  }

  lemma NotAmong(es: seq<Entry>, entry: Entry)
    requires UnlikeAll(entry.View(), ViewOf(es))
    ensures entry.timer !in Timers(es)
  {
    forall e | e in es ensures e.timer != entry.timer {
      var i :| 0 <= i < |es| && es[i] == e;
      assert Unlike(ViewOf(es)[i], entry.View());
    }
  }

  lemma InsertSame(ts: seq<Rec>, x: Rec, r: Rec)
    requires Sorted(ts) && Distinct(ts) && UnlikeAll(r, ts) && x.id == r.id && x.addr == r.addr
    ensures UnlikeAll(x, ts) && SameTimers(ts, Insert(ts, x), r)
  {
    InsertKeeps(ts, x);
  }

  lemma Suffixes(expired: seq<Entry>, moments: seq<Moment>, i: nat)
    requires i < |expired| == |moments|
    ensures ViewOf(expired[i..])[0] == expired[i].View()
    ensures ViewOf(expired[i..])[1..] == ViewOf(expired[i + 1..])
    ensures moments[i..][0] == moments[i] && moments[i..][1..] == moments[i + 1..]
  {
  }
}
