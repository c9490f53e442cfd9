/** The simulated timerfd: one helper thread serves any number of timers, each owned by a thread of
    its own, through a shared set, a wakeup pipe, and one tick pipe per timer.

    The helper's reads and writes and each region it or an owner runs under the mutex are atomic
    steps; everything else may come between.  A timer is named by the descriptor its ticks are
    written to. */
module TimerThreads {
  import opened Options
  import opened Timestamps
  import opened TimerSets
  import opened OneShots

  const IDLE_WAIT_MS := 10000
  const TOKEN_WRITTEN := 8   // sizeof(int64_t), what reset writes
  const TOKEN_READ := 4      // sizeof(int), what the helper reads

  /** The timeout of the next poll. */
  function WaitMs(timers: seq<Entry>, now: int): int {
    if timers == [] then IDLE_WAIT_MS
    else
      var d := Differ(now, timers[0].when, MILLISECOND);
      if d < 1 then 1 else d
  }

  /** The entries that are due, and the others. */
  function Due(timers: seq<Entry>, now: int): seq<Entry> {
    if timers == [] || now < timers[0].when then [] else [timers[0]] + Due(timers[1..], now)
  }

  function Rest(timers: seq<Entry>, now: int): seq<Entry> {
    if timers == [] || now < timers[0].when then timers else Rest(timers[1..], now)
  }

  lemma {:induction false} DueAndRest(timers: seq<Entry>, now: int)
    requires Sorted(timers)
    ensures Sorted(Rest(timers, now))
    ensures forall e :: e in Due(timers, now) <==> e in timers && e.when <= now
    ensures forall e :: e in Rest(timers, now) <==> e in timers && now < e.when
  {
    if timers != [] {
      HeadIsLess(timers);
      if timers[0].when <= now { DueAndRest(timers[1..], now); }
    }
  }

  function Fds(entries: seq<Entry>): seq<int> {
    if entries == [] then [] else [entries[0].id] + Fds(entries[1..])
  }

  /** The set after an owner has replaced `old` by `new`; a zero timestamp is not a valid one to erase. */
  function Replace(timers: seq<Entry>, fd: int, new': int, old': int): seq<Entry> {
    Insert(if old' != 0 then Erase(timers, Entry(old', fd)) else timers, Entry(new', fd))
  }

  class TimerThread {
    var timers: seq<Entry>   // timer_set_
    var wake: nat            // unread bytes in the wakeup pipe

    constructor ()
      ensures timers == [] && wake == 0
    {
      timers, wake := [], 0;
    }

    method Reset(fd: int, new': int, old': int)
      requires Sorted(timers)
      modifies this
      ensures timers == Replace(old(timers), fd, new', old') && Sorted(timers) && wake == old(wake) + TOKEN_WRITTEN
      ensures forall e :: e in timers <==>
                e == Entry(new', fd) || (e in old(timers) && (old' == 0 || e != Entry(old', fd)))
    {
      if old' != 0 {
        EraseIsSorted(timers, Entry(old', fd));
        timers := Erase(timers, Entry(old', fd));
      }
      InsertIsSorted(timers, Entry(new', fd));
      timers := Insert(timers, Entry(new', fd));
      wake := wake + TOKEN_WRITTEN;
    }

    /** What the helper does under the mutex after poll has returned. */
    method TakeExpired(now: int) returns (fds: seq<int>)
      modifies this`timers
      ensures timers == Rest(old(timers), now) && fds == Fds(Due(old(timers), now))
    {
      fds := [];
      ghost var taken: seq<Entry> := [];
      while timers != [] && timers[0].when <= now
        invariant Rest(timers, now) == Rest(old(timers), now)
        invariant taken + Due(timers, now) == Due(old(timers), now) && fds == Fds(taken)
        decreases |timers|
      {
        FdsAppend(taken, timers[0]);
        assert (taken + [timers[0]]) + Due(timers[1..], now) == taken + Due(timers, now);
        taken := taken + [timers[0]];
        fds := fds + [timers[0].id];
        timers := timers[1..];
      }
      assert taken + [] == taken;
    }
  }

  /** The owner's side of one timer: its expiration_ts_ and the tick pipe it reads. */
  class TimerfdThreadSimulation {
    const fd: int
    var expiration: int
    var ticks: nat

    constructor (fd: int)
      ensures this.fd == fd && expiration == 0 && ticks == 0
    {
      this.fd, expiration, ticks := fd, 0, 0;
    }

    method Reset(thread: TimerThread, when: int)
      requires Sorted(thread.timers)
      modifies this`expiration, thread
      ensures expiration == when && thread.timers == Replace(old(thread.timers), fd, when, old(expiration))
      ensures Sorted(thread.timers) && thread.wake == old(thread.wake) + TOKEN_WRITTEN
    {
      var previous := expiration;
      thread.Reset(fd, when, previous);
      expiration := when;
    }

    /** Blocks without a tick. */
    method Read()
      requires ticks > 0
      modifies this`ticks
      ensures ticks == old(ticks) - 1
    {
      ticks := ticks - 1;
    }
  }

  lemma {:induction false} FdsAppend(s: seq<Entry>, e: Entry)
    ensures Fds(s + [e]) == Fds(s) + [e.id]
  {
    if s == [] {
      assert [e][1..] == [];
      assert Fds([e]) == [e.id] + Fds([]);
    } else {
      FdsAppend(s[1..], e);
      assert (s + [e])[1..] == s[1..] + [e];
    }
  }

  // The interleavings.

  /** Where the helper thread is in TimerFunc. */
  datatype Pc =
    | Compute                                                // about to compute the timeout
    | Waiting(snapshot: seq<Entry>, from: int, wait: int)    // the timeout is computed, the mutex released
    | AtPoll(snapshot: seq<Entry>, from: int, entered: int, until: int)  // in poll, until when at most
    | Returned(ready: bool)                                  // poll has returned
    | Woken(ready: bool, now: int)                           // the time has been taken
    | Popping(now: int)                                      // about to take the expired entries
    | Writing(fds: seq<int>)                                 // writing ticks

  datatype State = State(
    pc: Pc,
    timers: seq<Entry>,
    wake: nat,
    ticks: map<int, nat>,        // unread ticks of each timer
    expiration: map<int, int>,   // expiration_ts_ of each timer; zero before its first reset
    clock: int,
    resets: nat,                 // history
    wakeReads: nat)              // history

  datatype Action =
    | Pass(now: int)
    | Reset(fd: int, when: int)
    | ReadTick(fd: int)
    | ComputeWait | EnterPoll | PollReturn | PollFails | TakeNow | ReadWake | Pop | WriteTick | EndWrites

  predicate Enabled(s: State, a: Action) {
    match a
    case Pass(now) => s.clock <= now
    case Reset(fd, _) => fd in s.expiration
    case ReadTick(fd) => fd in s.ticks && s.ticks[fd] > 0
    case ComputeWait => s.pc.Compute?
    case EnterPoll => s.pc.Waiting?
    case PollReturn => s.pc.AtPoll? && (s.wake > 0 || s.pc.until <= s.clock)
    case PollFails => s.pc.AtPoll?
    case TakeNow => s.pc.Returned?
    case ReadWake => s.pc.Woken?
    case Pop => s.pc.Popping?
    case WriteTick => s.pc.Writing? && s.pc.fds != [] && s.pc.fds[0] in s.ticks
    case EndWrites => s.pc.Writing? && s.pc.fds == []
  }

  function Apply(s: State, a: Action): State
    requires Enabled(s, a)
  {
    match a
    case Pass(now) => s.(clock := now)
    case Reset(fd, when) =>
      s.(timers := Replace(s.timers, fd, when, s.expiration[fd]), wake := s.wake + TOKEN_WRITTEN,
         expiration := s.expiration[fd := when], resets := s.resets + 1)
    case ReadTick(fd) => s.(ticks := s.ticks[fd := s.ticks[fd] - 1])
    case ComputeWait => s.(pc := Waiting(s.timers, s.clock, WaitMs(s.timers, s.clock) * MILLISECOND))
    case EnterPoll => s.(pc := AtPoll(s.pc.snapshot, s.pc.from, s.clock, s.clock + s.pc.wait))
    case PollReturn => s.(pc := Returned(s.wake > 0))
    case PollFails => s.(pc := Compute)
    case TakeNow => s.(pc := Woken(s.pc.ready, s.clock))
    case ReadWake =>
      if s.pc.ready then
        var read := if s.wake < TOKEN_READ then s.wake else TOKEN_READ;
        s.(pc := Popping(s.pc.now), wake := s.wake - read, wakeReads := s.wakeReads + 1)
      else s.(pc := Popping(s.pc.now))
    case Pop => s.(pc := Writing(Fds(Due(s.timers, s.pc.now))), timers := Rest(s.timers, s.pc.now))
    case WriteTick => s.(pc := Writing(s.pc.fds[1..]), ticks := s.ticks[s.pc.fds[0] := s.ticks[s.pc.fds[0]] + 1])
    case EndWrites => s.(pc := Compute)
  }

  ghost predicate Initial(s: State) {
    && s.pc.Compute? && s.timers == [] && s.wake == 0 && s.resets == 0 && s.wakeReads == 0
    && (forall fd :: fd in s.ticks <==> fd in s.expiration)
    && (forall fd :: fd in s.expiration ==> s.expiration[fd] == 0 && s.ticks[fd] == 0)
  }

  /** At most one entry per timer, and it is the expiration the timer was last set to. */
  ghost predicate OneEntryEach(s: State) {
    forall e :: e in s.timers ==> e.id in s.expiration && s.expiration[e.id] == e.when
  }

  /** The helper has not missed a reset: in poll, either the set is the one the timeout was computed
      from, or the wakeup pipe is readable. */
  ghost predicate Watching(s: State) {
    match s.pc
    case Waiting(snapshot, from, wait) =>
      && from <= s.clock && wait == WaitMs(snapshot, from) * MILLISECOND
      && (s.timers == snapshot || s.wake > 0)
    case AtPoll(snapshot, from, entered, until) =>
      && from <= entered <= s.clock && until == entered + WaitMs(snapshot, from) * MILLISECOND
      && (s.timers == snapshot || s.wake > 0)
    case Returned(ready) => ready ==> s.wake > 0
    case Woken(ready, now) => now <= s.clock && (ready ==> s.wake > 0)
    case Popping(now) => now <= s.clock
    case _ => true
  }

  ghost predicate Inv(s: State) {
    && Sorted(s.timers) && OneEntryEach(s) && Watching(s)
    && (forall fd :: fd in s.ticks <==> fd in s.expiration)
    && (s.pc.Writing? ==> forall fd :: fd in s.pc.fds ==> fd in s.ticks)
    && s.wake == TOKEN_WRITTEN * s.resets - TOKEN_READ * s.wakeReads
  }

  lemma InitialInv(s: State)
    requires Initial(s)
    ensures Inv(s)
  {
  }

  lemma {:induction false} FdsOf(s: seq<Entry>, fd: int)
    ensures fd in Fds(s) <==> exists i :: 0 <= i < |s| && s[i].id == fd
  {
    if s != [] {
      FdsOf(s[1..], fd);
      if i :| 0 <= i < |s| && s[i].id == fd {
        if i > 0 { assert s[1..][i - 1].id == fd; }
      }
      if fd in Fds(s[1..]) {
        var i :| 0 <= i < |s[1..]| && s[1..][i].id == fd;
        assert s[i + 1].id == fd;
      }
    }
  }

  lemma ReplaceIsExact(timers: seq<Entry>, fd: int, new': int, old': int)
    requires Sorted(timers)
    ensures Sorted(Replace(timers, fd, new', old'))
    ensures forall e :: e in Replace(timers, fd, new', old') <==>
              e == Entry(new', fd) || (e in timers && (old' == 0 || e != Entry(old', fd)))
  {
    var kept := if old' != 0 then Erase(timers, Entry(old', fd)) else timers;
    if old' != 0 { EraseIsSorted(timers, Entry(old', fd)); }
    InsertIsSorted(kept, Entry(new', fd));
  }

  /** Exactly when a reset keeps one entry per timer: unless the timer is waiting for timestamp zero,
      which reset takes for "never set" and does not erase. */
  lemma ResetKeepsOneEntryExactly(s: State, fd: int, when: int)
    requires Inv(s) && Enabled(s, Reset(fd, when))
    ensures OneEntryEach(Apply(s, Reset(fd, when))) <==>
            !(s.expiration[fd] == 0 && Entry(0, fd) in s.timers && when != 0)
  {
    ReplaceIsExact(s.timers, fd, when, s.expiration[fd]);
    var s' := Apply(s, Reset(fd, when));
    if s.expiration[fd] == 0 && Entry(0, fd) in s.timers && when != 0 {
      assert Entry(0, fd) in s'.timers;
    }
  }

  /** A timer set to timestamp zero and then to another is in the set twice. */
  lemma ZeroLeavesAStaleEntry(s: State, fd: int)
    requires Initial(s) && fd in s.expiration
    ensures var acts := [Reset(fd, 0), Reset(fd, 7)];
            && Run(s, acts).Some? && !OneEntryEach(Run(s, acts).value)
            && Entry(0, fd) in Run(s, acts).value.timers && Entry(7, fd) in Run(s, acts).value.timers
  {
    InitialInv(s);
    var s1 := Apply(s, Reset(fd, 0));
    ResetKeepsInv(s, fd, 0);
    ReplaceIsExact(s.timers, fd, 0, 0);
    var s2 := Apply(s1, Reset(fd, 7));
    ReplaceIsExact(s1.timers, fd, 7, 0);
    ResetKeepsOneEntryExactly(s1, fd, 7);
    assert Run(s2, []) == Some(s2);
    assert [Reset(fd, 7)][1..] == [] && Run(s1, [Reset(fd, 7)]) == Some(s2);
    assert [Reset(fd, 0), Reset(fd, 7)][1..] == [Reset(fd, 7)];
  }

  lemma ResetKeepsInv(s: State, fd: int, when: int)
    requires Inv(s) && Enabled(s, Reset(fd, when))
    requires s.expiration[fd] == 0 ==> Entry(0, fd) !in s.timers
    ensures Inv(Apply(s, Reset(fd, when)))
  {
    ResetKeepsOneEntryExactly(s, fd, when);
    ReplaceIsExact(s.timers, fd, when, s.expiration[fd]);
  }

  lemma PopKeepsInv(s: State)
    requires Inv(s) && Enabled(s, Pop)
    ensures Inv(Apply(s, Pop))
  {
    DueAndRest(s.timers, s.pc.now);
    var due := Due(s.timers, s.pc.now);
    forall fd | fd in Fds(due) ensures fd in s.ticks {
      FdsOf(due, fd);
      var i :| 0 <= i < |due| && due[i].id == fd;
      assert due[i] in due;
    }
  }

  lemma StepKeepsInv(s: State, a: Action)
    requires Inv(s) && Enabled(s, a)
    requires a.Reset? && s.expiration[a.fd] == 0 ==> Entry(0, a.fd) !in s.timers
    ensures Inv(Apply(s, a))
  {
    match a
    case Reset(fd, when) => ResetKeepsInv(s, fd, when);
    case Pop => PopKeepsInv(s);
    case WriteTick => assert forall fd :: fd in s.pc.fds[1..] ==> fd in s.pc.fds;
    case _ =>
  }

  /** A run of the machine. */
  function Run(s: State, acts: seq<Action>): Option<State>
    decreases |acts|
  {
    if acts == [] then Some(s)
    else if Enabled(s, acts[0]) then Run(Apply(s, acts[0]), acts[1..])
    else None
  }

  // What the histories are, from the actions alone.

  function Resets(acts: seq<Action>): nat {
    if acts == [] then 0 else (if acts[0].Reset? then 1 else 0) + Resets(acts[1..])
  }

  /** How often the helper read the wakeup pipe: once for each poll that found it readable. */
  function WakeReads(s: State, acts: seq<Action>): nat
    requires Run(s, acts).Some?
    decreases |acts|
  {
    if acts == [] then 0
    else (if acts[0].ReadWake? && s.pc.ready then 1 else 0) + WakeReads(Apply(s, acts[0]), acts[1..])
  }

  lemma {:induction false} WakeHistory(s: State, acts: seq<Action>)
    requires Run(s, acts).Some?
    ensures Run(s, acts).value.resets == s.resets + Resets(acts)
    ensures Run(s, acts).value.wakeReads == s.wakeReads + WakeReads(s, acts)
    decreases |acts|
  {
    if acts != [] {
      WakeHistory(Apply(s, acts[0]), acts[1..]);
    }
  }

  /** A poll that finds the pipe readable leads to a read of it. */
  lemma ReadableIsRead(s: State)
    requires Inv(s) && s.pc.AtPoll? && s.wake >= TOKEN_READ
    ensures var acts := [PollReturn, TakeNow, ReadWake];
            Run(s, acts).Some? && Run(s, acts).value.wake == s.wake - 4
  {
    var s1 := Apply(s, PollReturn);
    var s2 := Apply(s1, TakeNow);
    var s3 := Apply(s2, ReadWake);
    assert Run(s3, []) == Some(s3);
    assert [ReadWake][1..] == [] && Run(s2, [ReadWake]) == Some(s3);
    assert [TakeNow, ReadWake][1..] == [ReadWake] && Run(s1, [TakeNow, ReadWake]) == Some(s3);
    assert [PollReturn, TakeNow, ReadWake][1..] == [TakeNow, ReadWake];
  }

  /** The helper can always take its next step, in poll when its time is up; and an owner can always set
      its timer, and read a tick that is there. */
  lemma NobodyIsStuck(s: State, fd: int, when: int)
    requires Inv(s)
    ensures || Enabled(s, ComputeWait) || Enabled(s, EnterPoll) || Enabled(s, TakeNow) || Enabled(s, ReadWake)
            || Enabled(s, Pop) || Enabled(s, WriteTick) || Enabled(s, EndWrites) || Enabled(s, PollReturn)
            || (s.pc.AtPoll? && s.clock < s.pc.until && Enabled(Apply(s, Pass(s.pc.until)), PollReturn))
    ensures fd in s.expiration ==> Enabled(s, Reset(fd, when)) && (s.ticks[fd] > 0 ==> Enabled(s, ReadTick(fd)))
  {
    if s.pc.Writing? && s.pc.fds != [] {
      var first := s.pc.fds[0];
      assert first in s.pc.fds;
      assert first in s.ticks;
      assert Enabled(s, WriteTick);
    }
    if s.pc.AtPoll? && s.clock < s.pc.until {
      assert Enabled(Apply(s, Pass(s.pc.until)), PollReturn);
    }
  }

  /** No timer is ever set to timestamp zero. */
  ghost predicate Nonzero(acts: seq<Action>) {
    forall i :: 0 <= i < |acts| && acts[i].Reset? ==> acts[i].when != 0
  }

  ghost predicate NoZeroEntry(s: State) {
    forall e :: e in s.timers ==> e.when != 0
  }

  lemma StepKeepsNonzero(s: State, a: Action)
    requires Inv(s) && NoZeroEntry(s) && Enabled(s, a) && (a.Reset? ==> a.when != 0)
    ensures Inv(Apply(s, a)) && NoZeroEntry(Apply(s, a))
  {
    StepKeepsInv(s, a);
    match a
    case Reset(fd, when) => ReplaceIsExact(s.timers, fd, when, s.expiration[fd]);
    case Pop => DueAndRest(s.timers, s.pc.now);
    case _ =>
  }

  lemma {:induction false} RunKeepsInv(s: State, acts: seq<Action>)
    requires Inv(s) && NoZeroEntry(s) && Nonzero(acts) && Run(s, acts).Some?
    ensures Inv(Run(s, acts).value) && NoZeroEntry(Run(s, acts).value)
    decreases |acts|
  {
    if acts != [] {
      StepKeepsNonzero(s, acts[0]);
      assert forall i :: 0 <= i < |acts[1..]| ==> acts[1..][i] == acts[i + 1];
      RunKeepsInv(Apply(s, acts[0]), acts[1..]);
    }
  }

  /** In every run from the start, with timestamps that are not zero: the set holds at most one entry
      per timer and that entry is the timer's expiration_ts_; unread wake bytes are eight per reset
      less four per read, so each reset causes at most two wake reads; and in poll no reset has been
      missed. */
  lemma HelperMissesNoReset(s: State, acts: seq<Action>)
    requires Initial(s) && Nonzero(acts) && Run(s, acts).Some?
    ensures var t := Run(s, acts).value;
            && (forall e, f :: e in t.timers && f in t.timers && e.id == f.id ==> e == f)
            && (forall e :: e in t.timers ==> e.id in t.expiration && t.expiration[e.id] == e.when)
            && t.wake == 8 * Resets(acts) - 4 * WakeReads(s, acts) && WakeReads(s, acts) <= 2 * Resets(acts)
            && (t.pc.AtPoll? ==> t.timers == t.pc.snapshot || t.wake > 0)
  {
    WakeHistory(s, acts);
    InitialInv(s);
    RunKeepsInv(s, acts);
  }

  /** In poll with nothing to read, the helper wakes by itself, and late by at most the delay between
      its taking the time and its entering poll: no later than the earliest deadline or, if that is
      later, one millisecond after it took the time, and that delay. */
  lemma HelperWakesInTime(s: State, acts: seq<Action>)
    requires Initial(s) && Nonzero(acts) && Run(s, acts).Some?
    requires var t := Run(s, acts).value; t.pc.AtPoll? && t.wake == 0 && t.timers != []
    ensures var t := Run(s, acts).value;
            var delay := t.pc.entered - t.pc.from;
            && t.pc.from <= t.pc.entered <= t.clock
            && (t.pc.until <= t.timers[0].when + delay || t.pc.until == t.pc.from + MILLISECOND + delay)
            && (t.pc.until > t.timers[0].when - MILLISECOND + delay)
  {
    InitialInv(s);
    RunKeepsInv(s, acts);
    var t := Run(s, acts).value;
    var d := Differ(t.pc.from, t.timers[0].when, MILLISECOND);
    if d >= 1 {
      assert d * MILLISECOND <= t.timers[0].when - t.pc.from;
    }
  }

  /** With no timer to wait for it waits ten seconds. */
  lemma IdleHelperWaits(s: State, acts: seq<Action>)
    requires Initial(s) && Nonzero(acts) && Run(s, acts).Some?
    requires var t := Run(s, acts).value; t.pc.AtPoll? && t.pc.snapshot == []
    ensures var t := Run(s, acts).value; t.pc.until == t.pc.entered + 10 * SECOND
  {
    InitialInv(s);
    RunKeepsInv(s, acts);
  }

  /** The delay does add to the wait: held up before poll, the helper sleeps past the deadline by the
      delay, less the part of a millisecond that rounding drops, with nothing to wake it. */
  lemma HelperCanOversleep(s: State, delay: nat)
    requires Inv(s) && s.pc.Compute? && s.wake == 0 && s.timers != []
    ensures var acts := [ComputeWait, Pass(s.clock + delay), EnterPoll];
            && Run(s, acts).Some? && Run(s, acts).value.pc.AtPoll?
            && Run(s, acts).value.wake == 0 && Run(s, acts).value.timers == s.timers
            && Run(s, acts).value.pc.until > s.timers[0].when - MILLISECOND + delay
  {
    var s1 := Apply(s, ComputeWait);
    var s2 := Apply(s1, Pass(s.clock + delay));
    var s3 := Apply(s2, EnterPoll);
    assert Run(s3, []) == Some(s3);
    assert [EnterPoll][1..] == [] && Run(s2, [EnterPoll]) == Some(s3);
    assert [Pass(s.clock + delay), EnterPoll][1..] == [EnterPoll];
    assert Run(s1, [Pass(s.clock + delay), EnterPoll]) == Some(s3);
    assert [ComputeWait, Pass(s.clock + delay), EnterPoll][1..] == [Pass(s.clock + delay), EnterPoll];
  }

  // The refinement of the one-shot timer with sticky ticks.

  /** One timer, as its owner can know it: armed while its entry is in the set; its ticks are those in
      its pipe and those the helper is about to write. */
  function View(s: State, fd: int): OneShot
    requires fd in s.expiration && fd in s.ticks
  {
    OneShot(if Entry(s.expiration[fd], fd) in s.timers then Some(s.expiration[fd]) else None,
            s.ticks[fd] + if s.pc.Writing? then multiset(s.pc.fds)[fd] else 0)
  }

  /** When no ticks are being written, a timer is armed while its entry is in the set, which is then for the
      expiration it was last set to, and its ticks are those in its pipe. */
  lemma ViewIsWhatIsThere(s: State, fd: int)
    requires Inv(s) && fd in s.expiration
    ensures fd in s.ticks
    ensures View(s, fd).armed.Some? <==> exists e :: e in s.timers && e.id == fd
    ensures forall e <- s.timers :: e.id == fd ==> View(s, fd).armed == Some(e.when)
    ensures !s.pc.Writing? ==> View(s, fd).ticks == s.ticks[fd]
    ensures s.pc.Writing? ==> View(s, fd).ticks == s.ticks[fd] + multiset(s.pc.fds)[fd]
  {
  }

  /** What a step means for one timer. */
  function EventOf(s: State, a: Action, fd: int): Option<Event>
    requires Enabled(s, a) && fd in s.expiration && fd in s.ticks
  {
    match a
    case Reset(r, when) => if r == fd then Some(Arm(when)) else None
    case ReadTick(r) => if r == fd then Some(Consume) else None
    case Pop =>
      var armed := View(s, fd).armed;
      if armed.Some? && armed.value <= s.pc.now then Some(Fire(s.pc.now)) else None
    case _ => None
  }

  /** Among entries of which at most one is this timer's, its descriptor occurs once if that one is
      there, and otherwise not at all. */
  lemma {:induction false} FdsCount(s: seq<Entry>, x: Entry)
    requires Sorted(s) && forall e :: e in s && e.id == x.id ==> e == x
    ensures multiset(Fds(s))[x.id] == if x in s then 1 else 0
  {
    if s != [] {
      HeadIsLess(s);
      assert Fds(s) == [s[0].id] + Fds(s[1..]);
      FdsCount(s[1..], x);
    }
  }

  lemma {:induction false} DueIsSorted(timers: seq<Entry>, now: int)
    requires Sorted(timers)
    ensures Sorted(Due(timers, now))
  {
    if timers != [] && timers[0].when <= now {
      HeadIsLess(timers);
      DueIsSorted(timers[1..], now);
      DueAndRest(timers[1..], now);
      PrependIsSorted(timers[0], Due(timers[1..], now));
    }
  }

  lemma PopRefines(s: State, fd: int)
    requires Inv(s) && Enabled(s, Pop) && fd in s.ticks
    ensures var v, v' := View(s, fd), View(Apply(s, Pop), fd);
            match EventOf(s, Pop, fd)
            case None => v' == v
            case Some(e) => Legal(v, e) && v' == Do(v, e)
  {
    var x := Entry(s.expiration[fd], fd);
    DueAndRest(s.timers, s.pc.now);
    DueIsSorted(s.timers, s.pc.now);
    forall e | e in Due(s.timers, s.pc.now) && e.id == fd ensures e == x {}
    FdsCount(Due(s.timers, s.pc.now), x);
  }

  lemma StepRefines(s: State, a: Action, fd: int)
    requires Inv(s) && NoZeroEntry(s) && Enabled(s, a) && (a.Reset? ==> a.when != 0) && fd in s.ticks
    ensures var v, v' := View(s, fd), View(Apply(s, a), fd);
            match EventOf(s, a, fd)
            case None => v' == v
            case Some(e) => Legal(v, e) && v' == Do(v, e)
  {
    match a
    case Reset(r, when) =>
      ReplaceIsExact(s.timers, r, when, s.expiration[r]);
    case Pop => PopRefines(s, fd);
    case WriteTick =>
      assert s.pc.fds == [s.pc.fds[0]] + s.pc.fds[1..];
      assert multiset(s.pc.fds) == multiset{s.pc.fds[0]} + multiset(s.pc.fds[1..]);
    case EndWrites => assert multiset(s.pc.fds)[fd] == 0;
    case _ =>
  }

  function EventsOf(s: State, acts: seq<Action>, fd: int): seq<Event>
    requires Run(s, acts).Some? && fd in s.expiration && fd in s.ticks
    decreases |acts|
  {
    if acts == [] then []
    else
      (match EventOf(s, acts[0], fd)
       case None => []
       case Some(e) => [e]) + EventsOf(Apply(s, acts[0]), acts[1..], fd)
  }

  /** The refinement, over whole runs: what happens to a timer in any interleaving, with any number of
      other timers, is a legal history of a one-shot timer with sticky ticks, which never fires before
      its expiration. */
  lemma {:induction false} RunRefines(s: State, acts: seq<Action>, fd: int)
    requires Inv(s) && NoZeroEntry(s) && Nonzero(acts) && Run(s, acts).Some? && fd in s.expiration && fd in s.ticks
    ensures fd in Run(s, acts).value.expiration && fd in Run(s, acts).value.ticks
    ensures Replay(View(s, fd), EventsOf(s, acts, fd)) == Some(View(Run(s, acts).value, fd))
    decreases |acts|
  {
    if acts != [] {
      var s1 := Apply(s, acts[0]);
      StepKeepsNonzero(s, acts[0]);
      StepRefines(s, acts[0], fd);
      assert forall i :: 0 <= i < |acts[1..]| ==> acts[1..][i] == acts[i + 1];
      RunRefines(s1, acts[1..], fd);
      var rest := EventsOf(s1, acts[1..], fd);
      match EventOf(s, acts[0], fd) {
        case None => assert [] + rest == rest;
        case Some(e) => assert ([e] + rest)[1..] == rest;
      }
    }
  }

  /** An expiration that has been set is never lost: until its owner reads, it is armed in the set, or a
      tick that is in the pipe or about to be written. */
  lemma {:induction false} ArmedIsNeverLost(s: State, acts: seq<Action>, fd: int)
    requires Inv(s) && NoZeroEntry(s) && Nonzero(acts) && Run(s, acts).Some? && fd in s.expiration && fd in s.ticks
    requires View(s, fd).armed.Some? || View(s, fd).ticks > 0
    requires ReadTick(fd) !in acts
    ensures var t := Run(s, acts).value;
            fd in t.expiration && fd in t.ticks && (View(t, fd).armed.Some? || View(t, fd).ticks > 0)
    decreases |acts|
  {
    if acts != [] {
      StepKeepsNonzero(s, acts[0]);
      StepRefines(s, acts[0], fd);
      assert acts[0] in acts;
      assert forall i :: 0 <= i < |acts[1..]| ==> acts[1..][i] == acts[i + 1];
      ArmedIsNeverLost(Apply(s, acts[0]), acts[1..], fd);
    }
  }

  /** The expirations that a timer's owner sets, and how often it reads. */
  function ResetsOf(acts: seq<Action>, fd: int): seq<int> {
    if acts == [] then []
    else (match acts[0]
          case Reset(r, when) => if r == fd then [when] else []
          case _ => []) + ResetsOf(acts[1..], fd)
  }

  function ReadsOf(acts: seq<Action>, fd: int): nat {
    if acts == [] then 0 else (if acts[0] == ReadTick(fd) then 1 else 0) + ReadsOf(acts[1..], fd)
  }

  /** A timer's events are armed by its owner's resets and consumed by its owner's reads, and by nothing else. */
  lemma {:induction false} EventsAreTheOwners(s: State, acts: seq<Action>, fd: int)
    requires Run(s, acts).Some? && fd in s.expiration && fd in s.ticks
    ensures Arms(EventsOf(s, acts, fd)) == ResetsOf(acts, fd)
    ensures Consumes(EventsOf(s, acts, fd)) == ReadsOf(acts, fd)
    decreases |acts|
  {
    if acts != [] {
      var s1 := Apply(s, acts[0]);
      EventsAreTheOwners(s1, acts[1..], fd);
      var first := match EventOf(s, acts[0], fd) case None => [] case Some(e) => [e];
      CountsOfConcat(first, EventsOf(s1, acts[1..], fd));
      assert first != [] ==> first[..0] == [];
    }
  }

  /** What a run comes to for one timer, without its events: in any interleaving from the start, its
      unread ticks and those being written are at most as many as its resets, less what was read; it is
      armed only for what it was last set to; and until it is set nothing happens to it. */
  lemma TimerComesTo(s: State, acts: seq<Action>, fd: int)
    requires Initial(s) && Nonzero(acts) && Run(s, acts).Some? && fd in s.expiration
    ensures var t := Run(s, acts).value;
            var sets := ResetsOf(acts, fd);
            && fd in t.ticks && fd in t.expiration
            && t.ticks[fd] + ReadsOf(acts, fd) <= |sets|
            && (forall e <- t.timers :: e.id == fd ==> sets != [] && e.when == sets[|sets| - 1])
  {
    InitialInv(s);
    RunKeepsInv(s, acts);
    RunRefines(s, acts, fd);
    EventsAreTheOwners(s, acts, fd);
    var es := EventsOf(s, acts, fd);
    HistoryComesTo(es);
    OutstandingIsLast(es);
    ViewIsWhatIsThere(Run(s, acts).value, fd);
  }

  lemma {:induction false} OutstandingIsLast(es: seq<Event>)
    ensures Outstanding(es).Some? ==> Arms(es) != [] && Outstanding(es).value == Arms(es)[|Arms(es)| - 1]
  {
    if es != [] {
      OutstandingIsLast(es[..|es| - 1]);
    }
  }
}
