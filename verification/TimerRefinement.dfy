/** The simulated Timerfd that TimerQueue is proved over can do whatever the helper thread makes of a
    timer: every interleaving of the thread, seen by one timer's owner, is a history of it. */
module TimerRefinement {
  import opened Options
  import opened OneShots
  import opened TimerQueues
  import TimerThreads

  /** One event, by the method that it stands for. */
  method Follow(t: Timerfd, e: Event)
    requires t.Valid() && t.simulated && Legal(t.View(), e) && (e.Arm? ==> e.when != 0)
    modifies t, t.clock
    ensures t.Valid() && t.View() == Do(old(t.View()), e)
  {
    match e
    case Arm(when) => t.Reset(when);
    case Fire(at) =>
      t.clock.AdvanceTo(at);
      t.Expire();
    case Consume => t.Read();
  }

  lemma {:induction false} EventsAreNonzero(s: TimerThreads.State, acts: seq<TimerThreads.Action>, fd: int)
    requires TimerThreads.Inv(s) && TimerThreads.NoZeroEntry(s) && TimerThreads.Nonzero(acts)
    requires TimerThreads.Run(s, acts).Some? && fd in s.expiration && fd in s.ticks
    ensures forall e <- TimerThreads.EventsOf(s, acts, fd) :: e.Arm? ==> e.when != 0
    decreases |acts|
  {
    if acts != [] {
      TimerThreads.StepKeepsNonzero(s, acts[0]);
      assert forall i :: 0 <= i < |acts[1..]| ==> acts[1..][i] == acts[i + 1];
      EventsAreNonzero(TimerThreads.Apply(s, acts[0]), acts[1..], fd);
    }
  }

  /** Any run of the helper thread and all its timers' owners, with timestamps that are not zero: a
      Timerfd ends as the timer does. */
  method FollowThread(s: TimerThreads.State, acts: seq<TimerThreads.Action>, fd: int) returns (t: Timerfd)
    requires TimerThreads.Initial(s) && TimerThreads.Nonzero(acts) && TimerThreads.Run(s, acts).Some?
    requires fd in s.expiration
    ensures fresh(t) && t.Valid() && t.simulated
    ensures var end := TimerThreads.Run(s, acts).value;
            fd in end.expiration && fd in end.ticks && t.View() == TimerThreads.View(end, fd)
  {
    TimerThreads.InitialInv(s);
    TimerThreads.RunRefines(s, acts, fd);
    EventsAreNonzero(s, acts, fd);
    var events := TimerThreads.EventsOf(s, acts, fd);
    ghost var end := TimerThreads.View(TimerThreads.Run(s, acts).value, fd);
    var clock := new Clock();
    t := new Timerfd(clock, true);
    var i := 0;
    while i < |events|
      invariant i <= |events| && t.Valid() && t.simulated && fresh(t) && fresh(t.clock)
      invariant Replay(t.View(), events[i..]) == Some(end)
    {
      assert events[i..][1..] == events[i + 1..];
      Follow(t, events[i]);
      i := i + 1;
    }
  }
}
