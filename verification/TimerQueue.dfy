/** TimerQueue over a one-shot Timerfd, with callbacks that add timers while a batch is run. */
module TimerQueues {
  import opened Options
  import opened Timestamps
  import opened TimerSets
  import opened TimerBooks
  import opened OneShots

  /** The steady clock. */
  class Clock {
    var time: int

    constructor ()
      ensures time >= 0
    {
      time := 0;
    }

    method Now() returns (now: int)
      modifies this
      ensures now == time && old(time) <= time
    {
      var later: int := *;
      if later > time { time := later; }
      now := time;
    }

    method AdvanceTo(later: int)
      modifies this
      ensures time == if later > old(time) then later else old(time)
    {
      if later > time {
        time := later;
      }
    }
  }

  /** A one-shot timer behind a descriptor.  The kernel's discards an unread expiration when it is
      set again.  The simulated one keeps its ticks in a pipe and is never early: each of its methods
      is an event of OneShots, whose legal histories are those that the helper thread produces for
      timestamps that are not zero. */
  class Timerfd {
    const simulated: bool
    const clock: Clock
    var armed: Option<int>        // the expiration it is armed for
    var ticks: nat                // unread expirations
    var last: Option<int>         // history: the last expiration given to reset
    var due: int                  // the earliest time the last arming can fire
    ghost var events: seq<Event>  // history: what has happened to a simulated one

    ghost predicate Valid()
      reads this, clock
    {
      && (armed.Some? ==> last == armed)
      && (last.Some? ==> last.value - MICROSECOND < due)
      && (!simulated && ticks > 0 ==> armed.None? && last.Some? && due <= clock.time)
      && (simulated ==> (armed.Some? ==> due == armed.value) && Replay(IDLE, events) == Some(View()))
    }

    ghost function View(): OneShot
      reads this
    {
      OneShot(armed, ticks)
    }

    constructor (clock: Clock, simulated: bool)
      ensures Valid() && this.clock == clock && this.simulated == simulated && View() == IDLE && last.None?
      ensures events == []
    {
      this.clock, this.simulated := clock, simulated;
      armed, ticks, last, due, events := None, 0, None, 0, [];
    }

    ghost method Record(e: Event, before: OneShot)
      requires simulated ==> Replay(IDLE, events) == Some(before) && Legal(before, e) && View() == Do(before, e)
      modifies this`events
      ensures events == old(events) + [e]
      ensures simulated ==> Replay(IDLE, events) == Some(View())
    {
      if simulated {
        ReplayConcat(IDLE, events, [e]);
        assert [e][1..] == [];
      }
      events := events + [e];
    }

    method Reset(expiration: int)
      requires Valid() && (simulated ==> expiration != 0)
      modifies this, clock
      ensures Valid() && last == armed == Some(expiration)
      ensures ticks == (if simulated then old(ticks) else 0) && old(clock.time) <= clock.time
      ensures expiration <= old(clock.time) + 100 * MICROSECOND ==> due >= expiration
      ensures due <= if expiration < clock.time + 100 * MICROSECOND then clock.time + 100 * MICROSECOND else expiration
      ensures events == old(events) + [Arm(expiration)]
    {
      ghost var before := View();
      armed, last := Some(expiration), Some(expiration);
      var now := clock.Now();
      if simulated {
        due := expiration;
      } else {
        TimeSpecIsNormalised(now, expiration);
        due := now + Nanoseconds(HowMuchTimeFromNow(now, expiration));
        ticks := 0;
      }
      Record(Arm(expiration), before);
    }

    /** The expiration, at any time from `due` on. */
    method Expire()
      requires Valid() && armed.Some? && due <= clock.time
      modifies this`armed, this`ticks, this`events
      ensures Valid() && armed.None? && ticks == old(ticks) + 1
      ensures events == old(events) + [Fire(clock.time)]
    {
      ghost var before := View();
      armed, ticks := None, ticks + 1;
      Record(Fire(clock.time), before);
    }

    /** The kernel's descriptor is non-blocking; the simulated one would block without a tick. */
    method Read()
      requires Valid() && (simulated ==> ticks > 0)
      modifies this`ticks, this`events
      ensures Valid() && ticks == if simulated then old(ticks) - 1 else 0
      ensures events == old(events) + [Consume]
    {
      ghost var before := View();
      ticks := if simulated then ticks - 1 else 0;
      Record(Consume, before);
    }

    /** It may expire whenever it is due. */
    method MayExpire()
      requires Valid()
      modifies this`armed, this`ticks, this`events, clock
      ensures Valid() && old(clock.time) <= clock.time
      ensures (armed == old(armed) && ticks == old(ticks)) || (armed.None? && ticks == old(ticks) + 1)
    {
      var now := clock.Now();
      var expires: bool := *;
      if expires && armed.Some? && due <= now {
        Expire();
      }
    }
  }

  class TimerQueue {
    const clock: Clock
    const timerfd: Timerfd
    var timerList: seq<Entry>    // timer_list_
    var pending: seq<Entry>      // timers of add_timer_in_loop functors in the loop's queue
    var book: Book               // history: where every timer is
    ghost var emptyTicks: nat    // history: kernel ticks that ran nothing since the earliest deadline last changed

    ghost predicate Valid()
      reads this, timerfd, clock
    {
      && Good(book) && timerList == book.list && pending == book.queued
      && timerfd.clock == clock && timerfd.Valid() && book.cutoff <= clock.time
      && (timerfd.simulated ==> forall e <- book.added :: e.when != 0)
    }

    /** The early-fire bound: at most one empty tick for an earliest deadline, because after it the
        timerfd cannot fire before that deadline. */
    ghost predicate Patient()
      reads this, timerfd, clock
    {
      && emptyTicks <= 1
      && (emptyTicks == 1 ==>
            && !timerfd.simulated && timerList != []
            && timerList[0].when - MICROSECOND < clock.time && timerList[0].when <= timerfd.due)
    }

    /** A zero timestamp is not a valid one for the simulated timerfd. */
    predicate Accepts(e: Entry)
      reads this
    {
      e !in book.added && (timerfd.simulated ==> e.when != 0)
    }

    /** If a timer is waiting, the timerfd was last set to the earliest deadline, and is still armed for
        it or its tick is unread. */
    ghost predicate Live()
      reads this, timerfd
    {
      timerList != [] ==>
        timerfd.last == Some(timerList[0].when) && (timerfd.armed == Some(timerList[0].when) || timerfd.ticks > 0)
    }

    constructor (clock: Clock, simulated: bool)
      requires clock.time >= 0
      ensures Valid() && Live() && Patient() && book == EMPTY && emptyTicks == 0
      ensures this.clock == clock && timerfd.simulated == simulated
    {
      this.clock := clock;
      timerfd := new Timerfd(clock, simulated);
      timerList, pending, book, emptyTicks := [], [], EMPTY, 0;
    }

    /** add_timer from another thread: a functor is queued. */
    method AddTimerFromOutside(e: Entry)
      requires Valid() && Accepts(e)
      modifies this
      ensures Valid() && book == Enqueue(old(book), e) && emptyTicks == old(emptyTicks)
      ensures book.added == old(book.added) + {e} && pending == old(pending) + [e] && timerList == old(timerList)
      ensures (old(Live()) ==> Live()) && (old(Patient()) ==> Patient())
    {
      EnqueueKeepsGood(book, e);
      pending := pending + [e];
      book := Enqueue(book, e);
    }

    /** The list has been added to: the timerfd is set again exactly when the earliest deadline has
        changed, and then for the new one. */
    twostate predicate Rearmed(e: Entry)
      reads this, timerfd, clock
    {
      if old(timerList) == [] || e.when < old(timerList[0].when) then
        timerfd.last == timerfd.armed == Some(e.when) && emptyTicks == 0
      else
        unchanged(timerfd) && unchanged(clock) && emptyTicks == old(emptyTicks)
    }

    /** add_timer on the loop thread, from a handler, a functor or a timer's callback. */
    method AddTimer(e: Entry)
      requires Valid() && Accepts(e)
      modifies this, timerfd, clock
      ensures Valid() && book == AddDirect(old(book), e) && Rearmed(e)
      ensures book.added == old(book.added) + {e} && pending == old(pending)
      ensures multiset(timerList) == multiset(old(timerList)) + multiset{e} && e in timerList
      ensures (old(Live()) ==> Live()) && (old(Patient()) ==> Patient())
      ensures old(clock.time) <= clock.time && (timerfd.simulated ==> timerfd.ticks == old(timerfd.ticks))
    {
      AddDirectKeepsGood(book, e);
      AddingAddsOne(book, e);
      assert Sorted(timerList);
      hide Good;
      book := AddDirect(book, e);
      AddTimerInLoop(e);
    }

    /** The loop runs a queued add_timer_in_loop. */
    method RunPending()
      requires Valid() && pending != []
      modifies this, timerfd, clock
      ensures Valid() && book == AddQueued(old(book)) && Rearmed(old(pending[0]))
      ensures book.added == old(book.added) && old(pending) == [old(pending[0])] + pending
      ensures multiset(timerList) == multiset(old(timerList)) + multiset{old(pending[0])}
      ensures (old(Live()) ==> Live()) && (old(Patient()) ==> Patient())
      ensures old(clock.time) <= clock.time
    {
      AddQueuedKeepsGood(book);
      QueuedMovesOne(book);
      Exclusive(book, pending[0]);
      assert Sorted(timerList);
      hide Good;
      book := AddQueued(book);
      var e := pending[0];
      pending := pending[1..];
      AddTimerInLoop(e);
    }

    method AddTimerInLoop(e: Entry)
      requires Sorted(timerList) && timerfd.Valid() && timerfd.clock == clock
      requires timerfd.simulated ==> e.when != 0
      modifies this`timerList, this`emptyTicks, timerfd, clock
      ensures timerList == Insert(old(timerList), e) && timerfd.Valid() && Rearmed(e)
      ensures (old(Live()) ==> Live()) && (old(Patient()) ==> Patient())
      ensures old(clock.time) <= clock.time && (timerfd.simulated ==> timerfd.ticks == old(timerfd.ticks))
    {
      var earliestChanged := InsertTimer(e);
      if earliestChanged {
        emptyTicks := 0;
        timerfd.Reset(e.when);
      }
    }

    /** Tells whether the earliest deadline has changed. */
    method InsertTimer(e: Entry) returns (earliestChanged: bool)
      requires Sorted(timerList)
      modifies this`timerList
      ensures timerList == Insert(old(timerList), e) && Sorted(timerList) && timerList != []
      ensures earliestChanged <==> old(timerList) == [] || timerList[0].when != old(timerList)[0].when
      ensures earliestChanged ==> timerList[0] == e
    {
      InsertIsSorted(timerList, e);
      earliestChanged := timerList == [] || e.when < timerList[0].when;
      timerList := Insert(timerList, e);
    }

    method PopFirst(now: int)
      requires Valid() && timerList != [] && timerList[0].when <= now <= clock.time
      requires book.batch == [] || book.cutoff == now
      modifies this`timerList, this`book
      ensures Valid() && timerList == old(timerList)[1..] && book == Expire(old(book), now)
    {
      ExpireKeepsGood(book, now);
      timerList := timerList[1..];
      book := Expire(book, now);
    }

    /** Moves exactly the timers that are due, in order. */
    method GetExpired(now: int) returns (expired: seq<Entry>)
      requires Valid() && book.batch == [] && now <= clock.time
      modifies this`timerList, this`book
      ensures Valid() && expired == book.batch && expired + timerList == old(timerList)
      ensures forall e :: e in expired ==> e.when <= now
      ensures timerList != [] ==> now < timerList[0].when
      ensures book.added == old(book.added) && book.fired == old(book.fired) && book.at == old(book.at)
      ensures pending == old(pending)
    {
      hide Good;
      expired := [];
      while timerList != []
        invariant Valid() && expired == book.batch && expired + timerList == old(timerList)
        invariant (book.batch == [] || book.cutoff == now) && forall e :: e in expired ==> e.when <= now
        invariant book.added == old(book.added) && book.fired == old(book.fired) && book.at == old(book.at)
        decreases |timerList|
      {
        if timerList[0].when <= now {
          assert expired + timerList == (expired + [timerList[0]]) + timerList[1..];
          expired := expired + [timerList[0]];
          PopFirst(now);
        } else {
          break;
        }
      }
    }

    lemma NoneLeftDue(now: int)
      requires Sorted(timerList) && (timerList != [] ==> now < timerList[0].when)
      ensures forall e <- timerList :: now < e.when
    {
      forall e | e in timerList
        ensures now < e.when
      {
        HeadIsEarliest(timerList, e);
      }
    }

    /** Reads the timerfd and takes what is due. */
    method TakeDue() returns (expired: seq<Entry>)
      requires Valid() && book.batch == [] && (timerfd.simulated ==> timerfd.ticks > 0)
      modifies this`timerList, this`book, timerfd`ticks, timerfd`events, clock
      ensures Valid() && expired == book.batch && expired + timerList == old(timerList)
      ensures forall e <- expired :: e.when <= clock.time
      ensures forall e <- timerList :: old(clock.time) < e.when
      ensures book.fired == old(book.fired) && book.at == old(book.at) && book.added == old(book.added)
      ensures old(clock.time) <= clock.time
    {
      var now := clock.Now();
      timerfd.Read();
      expired := GetExpired(now);
      NoneLeftDue(now);
    }

    /** What a timer's callback may do: add timers and take its time; meanwhile other threads may add
        timers, and the timerfd may expire. */
    method Callback()
      requires Valid()
      modifies this, timerfd, clock
      ensures Valid() && book.batch == old(book.batch) && book.cutoff == old(book.cutoff)
      ensures book.fired == old(book.fired) && book.at == old(book.at) && old(book.added) <= book.added
      ensures multiset(old(timerList)) <= multiset(timerList)
      ensures old(clock.time) <= clock.time
    {
      var n: nat := *;
      while n > 0
        invariant Valid() && book.batch == old(book.batch) && book.cutoff == old(book.cutoff)
        invariant book.fired == old(book.fired) && book.at == old(book.at) && old(book.added) <= book.added
        invariant multiset(old(timerList)) <= multiset(timerList)
        invariant old(clock.time) <= clock.time
      {
        var e: Entry, outside: bool := *, *;
        timerfd.MayExpire();
        if Accepts(e) {
          if outside {
            AddTimerFromOutside(e);
          } else {
            AddTimer(e);
          }
        }
        n := n - 1;
      }
      timerfd.MayExpire();
    }

    /** The callbacks since then were called between that time and now. */
    ghost predicate Timed(before: seq<int>, start: int)
      reads this, clock
    {
      before <= book.at && forall i :: |before| <= i < |book.at| ==> start <= book.at[i] <= clock.time
    }

    /** One timer's callback. */
    method RunOne(e: Entry)
      requires Valid() && book.batch != [] && e == book.batch[0]
      modifies this, timerfd, clock
      ensures Valid() && book.batch == old(book.batch[1..]) && book.fired == old(book.fired) + [e]
      ensures old(book.added) <= book.added && Timed(old(book.at), old(clock.time))
      ensures multiset(old(timerList)) <= multiset(timerList)
      ensures old(clock.time) <= clock.time
    {
      var now := clock.Now();
      RunFirstKeepsGood(book, now);
      hide Good;
      book := RunFirst(book, now);
      Callback();
    }

    /** Runs the whole batch, in order. */
    method RunBatch(expired: seq<Entry>)
      requires Valid() && expired == book.batch
      modifies this, timerfd, clock
      ensures Valid() && book.batch == [] && book.fired == old(book.fired) + expired
      ensures old(book.added) <= book.added && Timed(old(book.at), old(clock.time))
      ensures multiset(old(timerList)) <= multiset(timerList)
      ensures old(clock.time) <= clock.time && (expired == [] ==> unchanged(this) && unchanged(timerfd))
    {
      hide Good, Timerfd.Valid;
      var i := 0;
      while i < |expired|
        invariant 0 <= i <= |expired| && Valid() && book.batch == expired[i..]
        invariant book.fired == old(book.fired) + expired[..i] && old(book.added) <= book.added
        invariant Timed(old(book.at), old(clock.time)) && multiset(old(timerList)) <= multiset(timerList)
        invariant old(clock.time) <= clock.time && (expired == [] ==> unchanged(this) && unchanged(timerfd))
      {
        assert expired[..i + 1] == expired[..i] + [expired[i]];
        RunOne(expired[i]);
        i := i + 1;
      }
      assert expired[..i] == expired;
    }

    method Reset()
      requires Valid()
      modifies timerfd, clock
      ensures Valid() && Live() && old(clock.time) <= clock.time
      ensures timerList != [] && timerList[0].when <= old(clock.time) + 100 * MICROSECOND ==>
                timerfd.due >= timerList[0].when
    {
      if timerList != [] {
        Exclusive(book, timerList[0]);
        timerfd.Reset(timerList[0].when);
      }
    }

    /** The timerfd's handler.  It runs the first `ran` timers of the list, in order: all that were
        due before it and none that is not due after it.  Whatever the callbacks add and however
        long they take, the queue is live again afterwards.  A kernel tick that runs nothing though
        a timer waits is the first such tick for that earliest deadline; it came less than a
        microsecond early. */
    method HandleRead() returns (ghost ran: nat)
      requires Valid() && book.batch == [] && (timerfd.simulated ==> timerfd.ticks > 0)
      modifies this, timerfd, clock
      ensures Valid() && Live() && book.batch == [] && ran <= |old(timerList)|
      ensures book.fired == old(book.fired) + old(timerList)[..ran]
      ensures forall e <- old(timerList)[..ran] :: e.when <= clock.time
      ensures forall e <- old(timerList)[ran..] :: old(clock.time) < e.when
      ensures old(book.added) <= book.added && Timed(old(book.at), old(clock.time))
      ensures multiset(old(timerList)[ran..]) <= multiset(timerList)
      ensures old(Live() && Patient()) ==> Patient()
      ensures old(Live() && Patient() && !timerfd.simulated && timerfd.ticks > 0 && timerList != []) &&
              book.fired == old(book.fired) ==>
                && old(emptyTicks) == 0 && emptyTicks == 1
                && timerList == old(timerList) && timerList[0].when - MICROSECOND < clock.time
    {
      hide Good, Timerfd.Valid;
      var expired := RunDue();
      ran := |expired|;
      assert old(timerList)[..ran] == expired;
    }

    /** The handler's body; what it tells is which timers have been run. */
    method RunDue() returns (expired: seq<Entry>)
      requires Valid() && book.batch == [] && (timerfd.simulated ==> timerfd.ticks > 0)
      modifies this, timerfd, clock
      ensures Valid() && Live() && book.batch == [] && book.fired == old(book.fired) + expired
      ensures expired <= old(timerList)
      ensures forall e <- expired :: e.when <= clock.time
      ensures forall e <- old(timerList)[|expired|..] :: old(clock.time) < e.when
      ensures old(book.added) <= book.added && Timed(old(book.at), old(clock.time))
      ensures multiset(old(timerList)[|expired|..]) <= multiset(timerList)
      ensures old(Live() && Patient()) ==> Patient()
      ensures old(Live() && Patient() && !timerfd.simulated && timerfd.ticks > 0 && timerList != []) &&
              expired == [] ==>
                && old(emptyTicks) == 0 && emptyTicks == 1
                && timerList == old(timerList) && timerList[0].when - MICROSECOND < clock.time
    {
      ghost var kernelTick := !timerfd.simulated && timerfd.ticks > 0;
      expired := TakeDue();
      assert old(timerList)[|expired|..] == timerList;
      hide Good;
      Finish(expired, kernelTick);
    }

    /** Runs the batch and sets the timerfd again. */
    method Finish(expired: seq<Entry>, ghost kernelTick: bool)
      requires Valid() && expired == book.batch
      modifies this, timerfd, clock
      ensures Valid() && Live() && book.batch == [] && book.fired == old(book.fired) + expired
      ensures old(book.added) <= book.added && Timed(old(book.at), old(clock.time))
      ensures multiset(old(timerList)) <= multiset(timerList)
      ensures old(clock.time) <= clock.time
      ensures expired != [] ==> emptyTicks == 0
      ensures expired == [] ==>
                && timerList == old(timerList)
                && emptyTicks == old(emptyTicks) + (if kernelTick && timerList != [] then 1 else 0)
                && (timerList != [] && timerList[0].when <= old(clock.time) + 100 * MICROSECOND ==>
                      timerList[0].when <= timerfd.due)
    {
      hide Good, Timerfd.Valid;
      RunBatch(expired);
      Reset();
      Count(expired != [], kernelTick);
    }

    /** Keeps the history of empty ticks. */
    ghost method Count(ran: bool, kernelTick: bool)
      modifies this`emptyTicks
      ensures emptyTicks ==
              if ran then 0 else old(emptyTicks) + (if kernelTick && timerList != [] then 1 else 0)
    {
      emptyTicks := if ran then 0 else emptyTicks + (if kernelTick && timerList != [] then 1 else 0);
    }

    /** Time passes and, when it may, the timerfd expires; it is not set again. */
    method Elapse()
      requires Valid() && Live()
      modifies timerfd`armed, timerfd`ticks, timerfd`events, clock
      ensures Valid() && Live() && (old(Patient()) ==> Patient()) && old(clock.time) <= clock.time
    {
      timerfd.MayExpire();
    }

    /** Any run: timers added from anywhere in any order, the clock and the timerfd at any pace, and the
        handler whenever poll may have reported the descriptor.  At every moment outside the handler
        the book is good, a waiting timer has a timerfd that will wake the loop, and for its deadline
        at most one kernel tick has come in vain. */
    method AnyRun(steps: nat)
      requires Valid() && Live() && Patient() && book.batch == []
      modifies this, timerfd, clock
      ensures Valid() && Live() && Patient() && book.batch == []
    {
      for k := 0 to steps
        invariant Valid() && Live() && Patient() && book.batch == []
      {
        var choice: int, e: Entry := *, *;
        if choice == 0 && Accepts(e) {
          AddTimerFromOutside(e);
        } else if choice == 1 && Accepts(e) {
          AddTimer(e);
        } else if choice == 2 && pending != [] {
          RunPending();
        } else if choice == 3 && (timerfd.ticks > 0 || !timerfd.simulated) {
          ghost var ran := HandleRead();
        } else {
          Elapse();
        }
      }
    }
  }
}
