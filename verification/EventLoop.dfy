/** The cross-thread protocol of EventLoop: one loop thread, any number of other threads.

    Every action below is one atomic step of one thread.  A push into `pending_functors_`
    happens under the mutex; the write into the wakeup pipe that follows it is a separate
    step, and so is the store to `quit_` and the write that follows that.  The state keeps,
    beside the object's fields, the point the loop thread has reached, the threads that are
    between their two steps, and a history of the functors in lock-acquisition order. */
module EventLoopProtocol {
  import opened Options

  type ThreadId = nat
  type Functor = nat

  /** Where the loop thread is in `loop()`. */
  datatype Pc =
    | Outside                                    // loop() not entered, or returned
    | Starting                                   // looping_ set, quit_ not yet cleared
    | Check                                      // about to evaluate !quit_
    | AtPoll                                     // in Poller::poll
    | Dispatch(wakeReady: bool, others: bool)    // handling active_channels_
    | BeforeSwap                                 // calling_pending_functors_ set, mutex not taken
    | Run(batch: seq<Functor>, inside: bool, owes: bool)  // running the swapped-out functors

  datatype State = State(
    pc: Pc,
    looping: bool,
    quit: bool,
    calling: bool,
    pending: seq<Functor>,
    tokens: nat,                // unread 8-byte tokens in the wakeup pipe
    pushing: set<ThreadId>,     // other threads between push_back and wakeup()
    quitting: set<ThreadId>,    // other threads between quit_ = true and wakeup()
    order: seq<Functor>,        // history: every functor pushed, in lock order
    executed: seq<Functor>,     // history: every functor whose call has begun
    cut: nat,                   // history: |order| at the last swap
    silent: bool,               // history: queued by the loop thread outside loop(), not yet swapped out
    polls: nat,                 // history: times poll was entered
    swaps: nat)                 // history: times pending_functors_ was swapped out

  const INIT := State(Outside, false, false, false, [], 0, {}, {}, [], [], 0, false, 0, 0)

  datatype Action =
    // any thread other than the loop thread
    | Push(t: ThreadId, f: Functor)
    | PushWrite(t: ThreadId)
    | QuitStore(t: ThreadId)
    | QuitWrite(t: ThreadId)
    // user code on the loop thread: outside loop(), in a handler, or in a functor
    | SelfPush(f: Functor)
    | SelfWrite
    | SelfQuit
    // the loop itself
    | Enter
    | ClearQuit
    | Test
    | PollReturn(others: bool)
    | ReadToken
    | BeginDrain
    | Swap
    | RunNext
    | EndDrain

  /** User code runs on the loop thread here. */
  predicate UserCode(pc: Pc) {
    pc.Outside? || (pc.Dispatch? && pc.others) || (pc.Run? && pc.inside && !pc.owes)
  }

  predicate Enabled(s: State, a: Action) {
    match a
    case Push(t, _) => t !in s.pushing + s.quitting
    case PushWrite(t) => t in s.pushing
    case QuitStore(t) => t !in s.pushing + s.quitting
    case QuitWrite(t) => t in s.quitting
    case SelfPush(_) => UserCode(s.pc)
    case SelfWrite => s.pc.Run? && s.pc.owes
    case SelfQuit => UserCode(s.pc)
    case Enter => s.pc.Outside? && !s.looping
    case ClearQuit => s.pc.Starting?
    case Test => s.pc.Check?
    case PollReturn(_) => s.pc.AtPoll?
    case ReadToken => s.pc.Dispatch? && s.pc.wakeReady && s.tokens > 0  // the pipe blocks when empty
    case BeginDrain => s.pc.Dispatch? && !s.pc.wakeReady
    case Swap => s.pc.BeforeSwap?
    case RunNext => s.pc.Run? && s.pc.batch != [] && !s.pc.owes
    case EndDrain => s.pc.Run? && s.pc.batch == [] && !s.pc.owes
  }

  function Apply(s: State, a: Action): State
    requires Enabled(s, a)
  {
    match a
    case Push(t, f) =>
      s.(pending := s.pending + [f], order := s.order + [f], pushing := s.pushing + {t})
    case PushWrite(t) => s.(tokens := s.tokens + 1, pushing := s.pushing - {t})
    case QuitStore(t) => s.(quit := true, quitting := s.quitting + {t})
    case QuitWrite(t) => s.(tokens := s.tokens + 1, quitting := s.quitting - {t})
    case SelfPush(f) =>
      var s1 := s.(pending := s.pending + [f], order := s.order + [f]);
      if s.calling && s.pc.Run? then s1.(pc := s.pc.(owes := true))
      else s1.(silent := s.silent || s.pc.Outside?)
    case SelfWrite => s.(tokens := s.tokens + 1, pc := s.pc.(owes := false))
    case SelfQuit => s.(quit := true)
    case Enter => s.(pc := Starting, looping := true)
    case ClearQuit => s.(pc := Check, quit := false)
    case Test =>
      if s.quit then s.(pc := Outside, looping := false)
      else s.(pc := AtPoll, polls := s.polls + 1)
    case PollReturn(others) => s.(pc := Dispatch(s.tokens > 0, others))
    case ReadToken => s.(pc := s.pc.(wakeReady := false), tokens := s.tokens - 1)
    case BeginDrain => s.(pc := BeforeSwap, calling := true)
    case Swap =>
      s.(pc := Run(s.pending, false, false), pending := [], cut := |s.order|, silent := false, swaps := s.swaps + 1)
    case RunNext =>
      s.(pc := Run(s.pc.batch[1..], true, false), executed := s.executed + [s.pc.batch[0]])
    case EndDrain => s.(pc := Check, calling := false)
  }

  /** The state after a whole interleaving, or None when some action was not possible. */
  function After(acts: seq<Action>): Option<State> {
    if acts == [] then Some(INIT)
    else
      match After(acts[..|acts| - 1])
      case None => None
      case Some(s) => if Enabled(s, acts[|acts| - 1]) then Some(Apply(s, acts[|acts| - 1])) else None
  }

  /** What is left of the batch being run. */
  function Batch(pc: Pc): seq<Functor> {
    if pc.Run? then pc.batch else []
  }

  /** Some thread has made work or a quit request visible and is about to write its token. */
  predicate TokenComing(s: State) {
    s.tokens > 0 || s.pushing != {} || s.quitting != {} || (s.pc.Run? && s.pc.owes)
  }

  ghost predicate Inv(s: State) {
    Ordered(s) && Woken(s)
  }

  /** The order clauses of the invariant. */
  ghost predicate Ordered(s: State) {
    && s.order == s.executed + Batch(s.pc) + s.pending
    && s.cut == |s.executed| + |Batch(s.pc)|
  }

  lemma StepKeepsOrder(s: State, a: Action)
    requires Ordered(s) && Enabled(s, a)
    ensures Ordered(Apply(s, a))
  {
    if a.Push? || a.SelfPush? {
      var ran := s.executed + Batch(s.pc);
      assert Batch(Apply(s, a).pc) == Batch(s.pc);
      assert ran + (s.pending + [a.f]) == s.order + [a.f];
    } else if a == Swap {
      assert s.executed + [] + s.pending == s.executed + s.pending + [];
    } else if a == RunNext {
      RunNextKeepsOrder(s.executed, s.pc.batch, s.pending);
    } else {
      Untouched(s, a);
    }
  }

  lemma RunNextKeepsOrder(executed: seq<Functor>, batch: seq<Functor>, pending: seq<Functor>)
    requires batch != []
    ensures executed + batch + pending == (executed + [batch[0]]) + batch[1..] + pending
  {
    assert batch == [batch[0]] + batch[1..];
  }

  lemma Untouched(s: State, a: Action)
    requires Enabled(s, a) && !a.Push? && !a.SelfPush? && !a.Swap? && !a.RunNext?
    ensures var s' := Apply(s, a);
            && s'.order == s.order && s'.executed == s.executed && s'.pending == s.pending && s'.cut == s.cut
            && Batch(s'.pc) == Batch(s.pc)
  {
  }

  lemma StepKeepsInv(s: State, a: Action)
    requires Inv(s) && Enabled(s, a)
    ensures Inv(Apply(s, a))
  {
    StepKeepsOrder(s, a);
    StepKeepsWakeups(s, a);
  }

  /** The flags, and the clauses about tokens. */
  ghost predicate Woken(s: State) {
    && (s.looping <==> !s.pc.Outside?)
    && (s.calling <==> s.pc.BeforeSwap? || s.pc.Run?)
    && (s.pc.Dispatch? && s.pc.wakeReady ==> s.tokens > 0)
    && (!s.pc.Dispatch? && !s.pc.BeforeSwap? && s.pending != [] && !s.silent ==>
          s.tokens > 0 || s.pushing != {} || (s.pc.Run? && s.pc.owes))
    && (s.pc.AtPoll? && s.quit ==> s.tokens > 0 || s.quitting != {})
    && (s.silent ==> s.pending != [])
  }

  lemma StepKeepsWakeups(s: State, a: Action)
    requires Woken(s) && Enabled(s, a)
    ensures Woken(Apply(s, a))
  {
    match a
    case Push(t, _) => assert t in Apply(s, a).pushing;
    case QuitStore(t) => assert t in Apply(s, a).quitting;
    case _ =>
  }

  lemma {:induction false} Reachable(acts: seq<Action>)
    requires After(acts).Some?
    ensures Inv(After(acts).value)
  {
    if acts != [] {
      var before := acts[..|acts| - 1];
      Reachable(before);
      StepKeepsInv(After(before).value, acts[|acts| - 1]);
    }
  }

  // What the histories are, from the actions alone.

  /** The functors pushed, in the order in which the mutex was taken. */
  function Pushed(acts: seq<Action>): seq<Functor> {
    if acts == [] then []
    else
      var rest := Pushed(acts[..|acts| - 1]);
      match acts[|acts| - 1]
      case Push(_, f) => rest + [f]
      case SelfPush(f) => rest + [f]
      case _ => rest
  }

  /** How many functors were called. */
  function Calls(acts: seq<Action>): nat {
    if acts == [] then 0 else Calls(acts[..|acts| - 1]) + if acts[|acts| - 1] == RunNext then 1 else 0
  }

  /** How often the queue was swapped out. */
  function Swaps(acts: seq<Action>): nat {
    if acts == [] then 0 else Swaps(acts[..|acts| - 1]) + if acts[|acts| - 1] == Swap then 1 else 0
  }

  /** How often poll was entered. */
  function Polls(acts: seq<Action>): nat {
    if acts == [] then 0
    else Polls(acts[..|acts| - 1]) +
         if acts[|acts| - 1] == Test && After(acts).Some? && After(acts).value.pc.AtPoll? then 1 else 0
  }

  /** Tokens written less tokens read. */
  function Tokens(acts: seq<Action>): int {
    if acts == [] then 0
    else
      var a := acts[|acts| - 1];
      Tokens(acts[..|acts| - 1]) +
      if a.PushWrite? || a.QuitWrite? || a.SelfWrite? then 1 else if a.ReadToken? then -1 else 0
  }

  /** Of the actions of these two sorts the latest is of the first. */
  function Latest(acts: seq<Action>, on: Action -> bool, off: Action -> bool): bool {
    if acts == [] then false
    else
      var a := acts[|acts| - 1];
      on(a) || (!off(a) && Latest(acts[..|acts| - 1], on, off))
  }

  /** quit() has been called, its store not cleared by loop() since. */
  predicate QuitAsked(acts: seq<Action>) {
    Latest(acts, (a: Action) => a.QuitStore? || a.SelfQuit?, (a: Action) => a.ClearQuit?)
  }

  /** The thread has pushed a functor, or set the flag, and not written its token since. */
  predicate PushUnwritten(acts: seq<Action>, t: ThreadId) {
    Latest(acts, (a: Action) => a.Push? && a.t == t, (a: Action) => a == PushWrite(t))
  }

  predicate QuitUnwritten(acts: seq<Action>, t: ThreadId) {
    Latest(acts, (a: Action) => a == QuitStore(t), (a: Action) => a == QuitWrite(t))
  }

  // What one action means for the lock order, the tokens and the flag.

  lemma StepOfOrder(s: State, a: Action)
    requires Enabled(s, a)
    ensures Apply(s, a).order == s.order + if a.Push? || a.SelfPush? then [a.f] else []
  {
  }

  lemma StepOfTokens(s: State, a: Action)
    requires Enabled(s, a)
    ensures Apply(s, a).tokens ==
            s.tokens + if a.PushWrite? || a.QuitWrite? || a.SelfWrite? then 1 else if a.ReadToken? then -1 else 0
  {
  }

  lemma StepOfQuit(s: State, a: Action)
    requires Enabled(s, a)
    ensures Apply(s, a).quit <==> a.QuitStore? || a.SelfQuit? || (!a.ClearQuit? && s.quit)
  {
  }

  /** The lock order is what was pushed: each call queues its functor, once. */
  lemma {:induction false} OrderIsPushed(acts: seq<Action>)
    requires After(acts).Some?
    ensures After(acts).value.order == Pushed(acts)
  {
    hide Enabled, Apply;
    if acts != [] {
      StepOfOrder(After(acts[..|acts| - 1]).value, acts[|acts| - 1]);
      OrderIsPushed(acts[..|acts| - 1]);
    }
  }

  lemma {:induction false} ExecutedIsCalled(acts: seq<Action>)
    requires After(acts).Some?
    ensures |After(acts).value.executed| == Calls(acts)
  {
    if acts != [] {
      ExecutedIsCalled(acts[..|acts| - 1]);
    }
  }

  lemma {:induction false} SwapsAreCounted(acts: seq<Action>)
    requires After(acts).Some?
    ensures After(acts).value.swaps == Swaps(acts)
  {
    if acts != [] {
      SwapsAreCounted(acts[..|acts| - 1]);
    }
  }

  lemma {:induction false} PollsAreCounted(acts: seq<Action>)
    requires After(acts).Some?
    ensures After(acts).value.polls == Polls(acts)
  {
    if acts != [] {
      PollsAreCounted(acts[..|acts| - 1]);
    }
  }

  /** The unread tokens are those written and not read. */
  lemma {:induction false} TokensAreConserved(acts: seq<Action>)
    requires After(acts).Some?
    ensures After(acts).value.tokens == Tokens(acts)
  {
    hide Enabled, Apply;
    if acts != [] {
      StepOfTokens(After(acts[..|acts| - 1]).value, acts[|acts| - 1]);
      TokensAreConserved(acts[..|acts| - 1]);
    }
  }

  lemma {:induction false} QuitIsAsked(acts: seq<Action>)
    requires After(acts).Some?
    ensures After(acts).value.quit <==> QuitAsked(acts)
  {
    hide Enabled, Apply;
    if acts != [] {
      StepOfQuit(After(acts[..|acts| - 1]).value, acts[|acts| - 1]);
      QuitIsAsked(acts[..|acts| - 1]);
    }
  }

  lemma StepInFlight(s: State, a: Action, t: ThreadId)
    requires Enabled(s, a)
    ensures t in Apply(s, a).pushing <==> (a.Push? && a.t == t) || (a != PushWrite(t) && t in s.pushing)
    ensures t in Apply(s, a).quitting <==> a == QuitStore(t) || (a != QuitWrite(t) && t in s.quitting)
  {
  }

  lemma {:induction false} PushesInFlight(acts: seq<Action>, t: ThreadId)
    requires After(acts).Some?
    ensures t in After(acts).value.pushing <==> PushUnwritten(acts, t)
  {
    hide Enabled, Apply;
    if acts != [] {
      PushesInFlight(acts[..|acts| - 1], t);
      StepInFlight(After(acts[..|acts| - 1]).value, acts[|acts| - 1], t);
    }
  }

  lemma {:induction false} QuitsInFlight(acts: seq<Action>, t: ThreadId)
    requires After(acts).Some?
    ensures t in After(acts).value.quitting <==> QuitUnwritten(acts, t)
  {
    hide Enabled, Apply;
    if acts != [] {
      QuitsInFlight(acts[..|acts| - 1], t);
      StepInFlight(After(acts[..|acts| - 1]).value, acts[|acts| - 1], t);
    }
  }

  /** The loop thread is never stuck: wherever it is, it can take a step. */
  lemma LoopIsNeverStuck(acts: seq<Action>)
    requires After(acts).Some?
    ensures var s := After(acts).value;
            || Enabled(s, Enter) || Enabled(s, ClearQuit) || Enabled(s, Test) || Enabled(s, PollReturn(false))
            || Enabled(s, ReadToken) || Enabled(s, BeginDrain) || Enabled(s, Swap) || Enabled(s, RunNext)
            || Enabled(s, EndDrain) || Enabled(s, SelfWrite)
  {
    hide After, Ordered;
    Reachable(acts);
  }

  /** No caller is: another thread that is not in the middle of a call can begin one, and one that is
      can finish it; and so can user code on the loop thread, which runs outside loop(), in handlers
      and in functors. */
  lemma CallersAreNeverStuck(s: State, t: ThreadId, f: Functor)
    ensures if t in s.pushing then Enabled(s, PushWrite(t))
            else if t in s.quitting then Enabled(s, QuitWrite(t))
            else Enabled(s, Push(t, f)) && Enabled(s, QuitStore(t))
    ensures s.pc.Outside? || (s.pc.Dispatch? && s.pc.others) || (s.pc.Run? && s.pc.inside && !s.pc.owes) ==>
              Enabled(s, SelfPush(f)) && Enabled(s, SelfQuit)
  {
  }

  /** A token that poll reports is read before the iteration's drain begins. */
  lemma {:induction false} ReportedTokenIsRead(s: State, others: bool, more: seq<Action>)
    requires s.pc.AtPoll? && s.tokens > 0
    requires From(s, [PollReturn(others)] + more).Some? && From(s, [PollReturn(others)] + more).value.pc.BeforeSwap?
    ensures ReadToken in more
  {
    var s1 := Apply(s, PollReturn(others));
    assert ([PollReturn(others)] + more)[1..] == more;
    ReadFirst(s1, more);
  }

  lemma {:induction false} ReadFirst(s: State, more: seq<Action>)
    requires s.pc.Dispatch? && s.pc.wakeReady && From(s, more).Some?
    ensures ReadToken in more || From(s, more).value.pc == s.pc
    decreases |more|
  {
    if more != [] && more[0] != ReadToken {
      ReadFirst(Apply(s, more[0]), more[1..]);
    }
  }

  /** The loop thread's own code queued functors only while loop() was running. */
  ghost predicate QueuesOnlyInsideLoop(acts: seq<Action>) {
    forall k :: 0 <= k < |acts| && acts[k].SelfPush? ==>
                  After(acts[..k]).Some? && !After(acts[..k]).value.pc.Outside?
  }

  lemma {:induction false} NeverSilent(acts: seq<Action>)
    requires After(acts).Some? && QueuesOnlyInsideLoop(acts)
    ensures !After(acts).value.silent
  {
    if acts != [] {
      var before := acts[..|acts| - 1];
      forall k | 0 <= k < |before| && before[k].SelfPush?
        ensures After(before[..k]).Some? && !After(before[..k]).value.pc.Outside?
      {
        assert before[..k] == acts[..k] && before[k] == acts[k];
      }
      NeverSilent(before);
    }
  }

  /** No lost wakeup.  In every interleaving in which the loop thread queues only inside loop():
      when it is in poll and functors are queued, a token is unread or some producer is between
      its push and its write; when no producer is, the pipe is readable and poll returns at once. */
  lemma NoLostWakeup(acts: seq<Action>)
    requires After(acts).Some? && QueuesOnlyInsideLoop(acts)
    ensures var s := After(acts).value;
            s.pc.AtPoll? && s.pending != [] ==> s.tokens > 0 || s.pushing != {}
  {
    Reachable(acts);
    NeverSilent(acts);
  }

  /** Poll is about to sleep although functors are queued and nobody will write a token for them. */
  predicate SleepsOnWork(s: State) {
    s.pc.AtPoll? && s.pending != [] && !TokenComing(s)
  }

  /** Exactly when the proviso matters: entering loop() from any reachable state puts the thread to
      sleep on queued work if and only if its own code has queued outside loop() and no token is
      there or on its way.  And whatever the value of `quit_` was, the loop polls: a quit() issued
      before loop() is lost. */
  lemma EnteringLoop(acts: seq<Action>)
    requires After(acts).Some? && After(acts).value.pc.Outside?
    ensures var s := After(acts).value;
            var entered := From(s, [Enter, ClearQuit, Test]);
            && entered.Some? && entered.value.pc.AtPoll? && !entered.value.quit
            && (SleepsOnWork(entered.value) <==> s.silent && !TokenComing(s))
  {
    Reachable(acts);
    var s := After(acts).value;
    var s1 := Apply(s, Enter);
    var s2 := Apply(s1, ClearQuit);
    var s3 := Apply(s2, Test);
    assert From(s3, []) == Some(s3);
    assert [Test][1..] == [] && From(s2, [Test]) == Some(s3);
    assert [ClearQuit, Test][1..] == [Test] && From(s1, [ClearQuit, Test]) == Some(s3);
    assert [Enter, ClearQuit, Test][1..] == [ClearQuit, Test];
  }

  /** Such a state is reachable: queue one functor before loop() and enter it. */
  lemma SleepsOnEarlyWork(f: Functor)
    ensures After([SelfPush(f)]).Some?
    ensures var entered := From(After([SelfPush(f)]).value, [Enter, ClearQuit, Test]);
            entered.Some? && SleepsOnWork(entered.value)
  {
    assert [SelfPush(f)][..0] == [];
    assert After([]) == Some(INIT);
    assert [] + [f] == [f];
    EnteringLoop([SelfPush(f)]);
  }

  /** A quit() is lost, too, when its store comes between loop()'s two: the flag is cleared after it, and
      the loop polls. */
  lemma QuitWhileStartingIsLost(acts: seq<Action>, t: ThreadId)
    requires After(acts).Some? && After(acts).value.pc.Starting?
    requires Enabled(After(acts).value, QuitStore(t))
    ensures var entered := From(After(acts).value, [QuitStore(t), ClearQuit, Test]);
            entered.Some? && entered.value.pc.AtPoll? && !entered.value.quit
  {
    var s := After(acts).value;
    var s1 := Apply(s, QuitStore(t));
    var s2 := Apply(s1, ClearQuit);
    var s3 := Apply(s2, Test);
    assert From(s3, []) == Some(s3);
    assert [Test][1..] == [] && From(s2, [Test]) == Some(s3);
    assert [ClearQuit, Test][1..] == [Test] && From(s1, [ClearQuit, Test]) == Some(s3);
    assert [QuitStore(t), ClearQuit, Test][1..] == [ClearQuit, Test];
  }

  /** The blocking read of the wakeup pipe never blocks: whenever the loop thread is about to
      do it there is a token, because it is the pipe's only reader. */
  lemma WakeupReadNeverBlocks(acts: seq<Action>)
    requires After(acts).Some?
    requires var s := After(acts).value; s.pc.Dispatch? && s.pc.wakeReady
    ensures Enabled(After(acts).value, ReadToken)
  {
    Reachable(acts);
  }

  /** Exactly once, in order: in every reachable state the functors in lock-acquisition order are
      those executed, then the rest of the running batch, then those queued; and as many have been
      executed as functors have been called. */
  lemma FunctorConservation(acts: seq<Action>)
    requires After(acts).Some?
    ensures var s := After(acts).value;
            && Pushed(acts) == s.order == s.executed + Batch(s.pc) + s.pending
            && |s.executed| == Calls(acts)
  {
    Reachable(acts);
    OrderIsPushed(acts);
    ExecutedIsCalled(acts);
  }

  /** A drain runs exactly what was queued before its swap: when it ends (and until the next
      swap) precisely the first `cut` functors of the lock order have been executed. */
  lemma DrainRunsWhatWasQueued(acts: seq<Action>)
    requires After(acts).Some?
    ensures var s := After(acts).value;
            && s.order == Pushed(acts) && s.cut <= |s.order|
            && s.executed + Batch(s.pc) == s.order[..s.cut]
            && (!s.pc.Run? ==> s.executed == s.order[..s.cut] && s.pending == s.order[s.cut..])
  {
    Reachable(acts);
    OrderIsPushed(acts);
    var s := After(acts).value;
    assert s.order[..s.cut] == s.executed + Batch(s.pc);
  }

  /** Continuing a run. */
  function From(s: State, acts: seq<Action>): Option<State>
    decreases |acts|
  {
    if acts == [] then Some(s)
    else if Enabled(s, acts[0]) then From(Apply(s, acts[0]), acts[1..])
    else None
  }

  lemma DrainStep(s: State, a: Action)
    requires s.pc.Run? && a != EndDrain && Enabled(s, a)
    ensures var s' := Apply(s, a);
            s'.pc.Run? && s'.executed + s'.pc.batch == s.executed + s.pc.batch && s.executed <= s'.executed
  {
    if a.RunNext? {
      assert s.pc.batch == [s.pc.batch[0]] + s.pc.batch[1..];
    }
  }

  /** A drain makes exactly as many calls as the batch is long, in its order, however many
      functors are queued meanwhile by functors or by other threads. */
  lemma {:induction false} DrainIsBounded(s: State, acts: seq<Action>)
    requires s.pc.Run? && EndDrain !in acts && From(s, acts).Some?
    ensures var s' := From(s, acts).value;
            && s'.pc.Run?
            && s'.executed + s'.pc.batch == s.executed + s.pc.batch
            && s.executed <= s'.executed
    decreases |acts|
  {
    if acts != [] {
      assert acts[0] in acts;
      DrainStep(s, acts[0]);
      DrainIsBounded(Apply(s, acts[0]), acts[1..]);
    }
  }

  /** A continuation that starts before a swap and ends outside the drain has swapped. */
  lemma {:induction false} SwapsOnTheWay(before: seq<Action>, acts: seq<Action>)
    requires After(before).Some? && From(After(before).value, acts).Some?
    requires After(before).value.pc.Dispatch? || After(before).value.pc.BeforeSwap?
    requires From(After(before).value, acts).value.pc.Check?
    ensures From(After(before).value, acts).value.swaps > After(before).value.swaps
    decreases |acts|
  {
    Reachable(before);
    var s := After(before).value;
    var s1 := Apply(s, acts[0]);
    if acts[0].Swap? {
      StepKeepsInv(s, Swap);
      Histories(s1, acts[1..]);
    } else {
      assert (before + [acts[0]])[..|before|] == before;
      SwapsOnTheWay(before + [acts[0]], acts[1..]);
    }
  }

  /** How the histories grow along a continuation. */
  lemma {:induction false} Histories(s: State, acts: seq<Action>)
    requires Inv(s) && From(s, acts).Some?
    ensures var s' := From(s, acts).value;
            && Inv(s') && s.order <= s'.order && s.swaps <= s'.swaps
            && (s'.swaps == s.swaps ==> s'.cut == s.cut)
            && (s'.swaps > s.swaps ==> s'.cut >= |s.order|)
    decreases |acts|
  {
    if acts != [] {
      HistoryStep(s, acts[0]);
      Histories(Apply(s, acts[0]), acts[1..]);
    }
  }

  lemma HistoryStep(s: State, a: Action)
    requires Inv(s) && Enabled(s, a)
    ensures var s' := Apply(s, a);
            && Inv(s') && s.order <= s'.order
            && ((s'.swaps == s.swaps && s'.cut == s.cut) || (s'.swaps == s.swaps + 1 && s'.cut == |s.order|))
  {
    StepKeepsInv(s, a);
  }

  /** Whatever was queued at some moment has been executed, each functor once and in lock
      order, when a later drain has ended. */
  lemma NextDrainExecutes(before: seq<Action>, acts: seq<Action>)
    requires After(before).Some? && From(After(before).value, acts).Some?
    requires var s' := From(After(before).value, acts).value;
             !s'.pc.Run? && s'.swaps > After(before).value.swaps
    ensures Pushed(before) == After(before).value.order <= From(After(before).value, acts).value.executed
  {
    Reachable(before);
    OrderIsPushed(before);
    Histories(After(before).value, acts);
  }

  /** Quit is never slept through: in poll after a quit() since loop() cleared the flag, a token is
      unread or the quitter has yet to write it. */
  lemma {:induction false} QuitIsNeverSleptThrough(acts: seq<Action>)
    requires After(acts).Some?
    ensures var s := After(acts).value;
            && (s.quit <==> QuitAsked(acts))
            && (s.pc.AtPoll? && QuitAsked(acts) ==> s.tokens > 0 || s.quitting != {})
  {
    Reachable(acts);
    QuitIsAsked(acts);
  }

  /** Swaps still to come once `quit_` is set inside loop(). */
  function SwapsLeft(pc: Pc): nat {
    if pc.AtPoll? || pc.Dispatch? || pc.BeforeSwap? then 1 else 0
  }

  /** The last iteration: once `quit_` is set inside loop(), no continuation that stays in
      this call of loop() polls again, and it drains exactly what is left of the current
      iteration; when it leaves, it has swapped the queue out as often as SwapsLeft says. */
  lemma {:induction false} QuitEndsTheLoop(s: State, acts: seq<Action>)
    requires s.quit && s.looping && !s.pc.Outside? && !s.pc.Starting?
    requires Enter !in acts && From(s, acts).Some?
    ensures var s' := From(s, acts).value;
            && s'.quit && s'.polls == s.polls
            && s'.swaps + SwapsLeft(s'.pc) == s.swaps + SwapsLeft(s.pc)
            && (s'.pc.Outside? <==> !s'.looping)
            && !s'.pc.Starting?
    decreases |acts|
  {
    if acts != [] {
      var s1 := Apply(s, acts[0]);
      assert acts[0] in acts;
      if s1.pc.Outside? {
        QuitStaysOut(s1, acts[1..]);
      } else {
        QuitEndsTheLoop(s1, acts[1..]);
      }
    }
  }

  lemma {:induction false} QuitStaysOut(s: State, acts: seq<Action>)
    requires s.quit && !s.looping && s.pc.Outside?
    requires Enter !in acts && From(s, acts).Some?
    ensures var s' := From(s, acts).value;
            s'.quit && s'.pc.Outside? && !s'.looping && s'.polls == s.polls && s'.swaps == s.swaps
    decreases |acts|
  {
    if acts != [] {
      assert acts[0] in acts;
      QuitStaysOut(Apply(s, acts[0]), acts[1..]);
    }
  }

  /** The same of runs: after a quit() that loop() has not cleared, however the run goes on within this
      call of loop(), poll is not entered again, and the queue is swapped out once more at most. */
  lemma QuitRequestedEndsTheLoop(acts: seq<Action>, more: seq<Action>)
    requires After(acts + more).Some? && QuitAsked(acts) && Enter !in more
    requires After(acts).Some? && !After(acts).value.pc.Outside? && !After(acts).value.pc.Starting?
    ensures Polls(acts + more) == Polls(acts) && Swaps(acts + more) <= Swaps(acts) + 1
    ensures After(acts + more).value.pc.Outside? && After(acts).value.pc.AtPoll? ==>
              Swaps(acts + more) == Swaps(acts) + 1
  {
    Reachable(acts);
    AfterThenFrom(acts, more);
    QuitIsAsked(acts);
    QuitEndsTheLoop(After(acts).value, more);
    PollsAreCounted(acts);
    PollsAreCounted(acts + more);
    SwapsAreCounted(acts);
    SwapsAreCounted(acts + more);
  }

  lemma AfterOneMore(acts: seq<Action>, a: Action)
    requires After(acts).Some? && Enabled(After(acts).value, a)
    ensures After(acts + [a]) == Some(Apply(After(acts).value, a))
  {
    assert (acts + [a])[..|acts|] == acts;
  }

  /** Runs compose: a run is any prefix of it followed by a continuation from where that ends. */
  lemma {:induction false} AfterThenFrom(acts: seq<Action>, more: seq<Action>)
    requires After(acts + more).Some?
    ensures After(acts).Some? && From(After(acts).value, more) == After(acts + more)
    decreases |more|
  {
    if more == [] {
      assert acts + more == acts;
    } else {
      assert acts + more == (acts + [more[0]]) + more[1..];
      AfterThenFrom(acts + [more[0]], more[1..]);
      assert (acts + [more[0]])[..|acts|] == acts;
    }
  }

  /** A whole drain, from the handlers' last step to the end of the iteration. */
  lemma DrainDone(before: seq<Action>, acts: seq<Action>)
    requires After(before).Some? && After(acts).Some? && before <= acts
    requires After(before).value.pc.Dispatch? && After(acts).value.pc.Check?
    ensures var s := After(before).value;
            var s' := After(acts).value;
            && s'.cut <= |s'.order| && s.order <= s'.executed == s'.order[..s'.cut]
            && s'.pending == s'.order[s'.cut..] && !s'.calling
            && s.order == Pushed(before) && s'.order == Pushed(acts)
  {
    OrderIsPushed(before);
    OrderIsPushed(acts);
    var more := acts[|before|..];
    assert acts == before + more;
    AfterThenFrom(before, more);
    DrainRunsWhatWasQueued(acts);
    Reachable(acts);
    SwapsOnTheWay(before, more);
    NextDrainExecutes(before, more);
  }

  /** The object itself, with the other threads' program counters beside its fields.  Between any
      two atomic steps of the loop thread the others may take any number of theirs; `trace` records
      the interleaving, and Valid says that the fields are what it leads to: every execution
      of the methods below is a run of the machine above. */
  class EventLoop {
    var looping: bool
    var quit: bool
    var calling: bool
    var pending: seq<Functor>
    var tokens: nat
    var pushing: set<ThreadId>
    var quitting: set<ThreadId>
    ghost var s: State
    ghost var trace: seq<Action>

    ghost predicate Valid()
      reads this
    {
      && After(trace) == Some(s)
      && looping == s.looping && quit == s.quit && calling == s.calling
      && pending == s.pending && tokens == s.tokens
      && pushing == s.pushing && quitting == s.quitting
    }

    constructor ()
      ensures Valid() && s == INIT && trace == []
    {
      looping, quit, calling, pending, tokens := false, false, false, [], 0;
      pushing, quitting := {}, {};
      s, trace := INIT, [];
    }

    ghost method Record(a: Action)
      requires After(trace) == Some(s) && Enabled(s, a)
      modifies this`s, this`trace
      ensures s == Apply(old(s), a) && trace == old(trace) + [a] && After(trace) == Some(s)
    {
      AfterOneMore(trace, a);
      s, trace := Apply(s, a), trace + [a];
    }

    // queue_in_loop and quit called from another thread, in their two steps each.

    method QueuePush(t: ThreadId, f: Functor)
      requires Valid() && t !in pushing + quitting
      modifies this
      ensures Valid() && s == Apply(old(s), Push(t, f)) && trace == old(trace) + [Push(t, f)]
    {
      pending := pending + [f];
      pushing := pushing + {t};
      Record(Push(t, f));
    }

    method QuitSet(t: ThreadId)
      requires Valid() && t !in pushing + quitting
      modifies this
      ensures Valid() && s == Apply(old(s), QuitStore(t)) && trace == old(trace) + [QuitStore(t)]
    {
      quit := true;
      quitting := quitting + {t};
      Record(QuitStore(t));
    }

    method Wakeup(t: ThreadId)
      requires Valid() && t in pushing + quitting
      modifies this
      ensures Valid() && tokens == old(tokens) + 1 && pending == old(pending) && quit == old(quit)
      ensures var a := if t in old(pushing) then PushWrite(t) else QuitWrite(t); trace == old(trace) + [a]
      ensures s.pc == old(s.pc) && s.silent == old(s.silent) && calling == old(calling) && old(trace) <= trace
      ensures s.executed == old(s.executed)
    {
      hide After;
      tokens := tokens + 1;
      if t in pushing {
        pushing := pushing - {t};
        Record(PushWrite(t));
      } else {
        quitting := quitting - {t};
        Record(QuitWrite(t));
      }
    }

    /** Any number of steps of other threads.  They never take the loop thread's place, remove
        queued functors, consume tokens or clear `quit_`. */
    method Others()
      requires Valid()
      modifies this
      ensures Valid() && s.pc == old(s.pc) && s.silent == old(s.silent) && old(trace) <= trace
      ensures calling == old(calling) && tokens >= old(tokens) && old(pending) <= pending && (old(quit) ==> quit)
      ensures s.executed == old(s.executed)
    {
      var n: nat := *;
      while n > 0
        invariant Valid() && s.pc == old(s.pc) && s.silent == old(s.silent) && old(trace) <= trace
        invariant calling == old(calling) && tokens >= old(tokens) && old(pending) <= pending && (old(quit) ==> quit)
        invariant s.executed == old(s.executed)
      {
        var t: ThreadId, f: Functor, quitter: bool := *, *, *;
        if t in pushing + quitting {
          Wakeup(t);
        } else if quitter {
          QuitSet(t);
        } else {
          QueuePush(t, f);
        }
        n := n - 1;
      }
    }

    // Code on the loop thread.

    /** queue_in_loop on the loop thread: it writes a token only while functors are being run. */
    method QueueInLoop(f: Functor)
      requires Valid() && UserCode(s.pc)
      modifies this
      ensures Valid() && s.pc == old(s.pc) && old(trace) + [SelfPush(f)] <= trace
      ensures s.executed == old(s.executed)
      ensures if old(calling) then trace[|trace| - 1] == SelfWrite else trace == old(trace) + [SelfPush(f)]
    {
      hide After;
      Reachable(trace);
      pending := pending + [f];
      Record(SelfPush(f));
      if calling {
        Others();
        tokens := tokens + 1;
        Record(SelfWrite);
      }
    }

    /** quit() on the loop thread: no token is needed. */
    method Quit()
      requires Valid() && UserCode(s.pc)
      modifies this
      ensures Valid() && s == Apply(old(s), SelfQuit) && trace == old(trace) + [SelfQuit]
    {
      quit := true;
      Record(SelfQuit);
    }

    /** What a handler or a functor may do to the loop, in any order and number. */
    method User()
      requires Valid() && UserCode(s.pc)
      modifies this
      ensures Valid() && s.pc == old(s.pc) && old(trace) <= trace && s.executed == old(s.executed)
    {
      var n: nat := *;
      while n > 0
        invariant Valid() && s.pc == old(s.pc) && old(trace) <= trace && s.executed == old(s.executed)
      {
        var f: Functor, quits: bool := *, *;
        Others();
        if quits { Quit(); } else { QueueInLoop(f); }
        n := n - 1;
      }
      Others();
    }

    /** One call of the drain's loop: this functor runs, and no other. */
    method CallFunctor(f: Functor)
      requires Valid() && s.pc.Run? && s.pc.batch != [] && f == s.pc.batch[0] && !s.pc.owes
      modifies this
      ensures Valid() && old(trace) <= trace && s.executed == old(s.executed) + [f]
      ensures s.pc.Run? && s.pc.batch == old(s.pc.batch[1..]) && !s.pc.owes
    {
      Others();
      Record(RunNext);
      User();
    }

    /** The start of a drain, up to and including the swap. */
    method SwapOut() returns (functors: seq<Functor>)
      requires Valid() && s.pc.Dispatch? && !s.pc.wakeReady
      modifies this
      ensures Valid() && old(trace) <= trace && s.pc == Run(functors, false, false)
    {
      hide After;
      calling := true;
      Record(BeginDrain);
      Others();
      functors := pending;
      pending := [];
      Record(Swap);
    }

    /** Every functor queued when the drain starts has run when it ends, and nothing that was
        queued after its swap has. */
    method DoPendingFunctors()
      requires Valid() && s.pc.Dispatch? && !s.pc.wakeReady
      modifies this
      ensures Valid() && s.pc.Check? && old(trace) <= trace && !calling
      ensures s.order == Pushed(trace) && old(s.order) == Pushed(old(trace))
      ensures s.cut <= |s.order| && old(s.order) <= s.executed == s.order[..s.cut] && pending == s.order[s.cut..]
    {
      hide After;
      var functors := SwapOut();
      var i := 0;
      while i < |functors|
        invariant 0 <= i <= |functors|
        invariant Valid() && old(trace) <= trace
        invariant s.pc.Run? && s.pc.batch == functors[i..] && !s.pc.owes
      {
        CallFunctor(functors[i]);
        i := i + 1;
      }
      Others();
      calling := false;
      Record(EndDrain);
      DrainDone(old(trace), trace);
    }

    /** The body of the while loop in loop(), from poll to the end of the drain.  While the thread is
        in poll no queued functor and no quit request waits for a token nobody will write. */
    method Iterate()
      requires Valid() && s.pc.AtPoll?
      modifies this
      ensures Valid() && old(trace) <= trace && s.pc.Check?
    {
      hide After;
      Others();
      PollIsSafe();
      var others: bool, ready := *, tokens > 0;
      Record(PollReturn(others));
      HandleActive(ready, others);
      DoPendingFunctors();
    }

    /** The handlers of one pass: the wakeup channel's if it was reported, and others before and after. */
    method HandleActive(ready: bool, others: bool)
      requires Valid() && s.pc == Dispatch(ready, others)
      modifies this
      ensures Valid() && old(trace) <= trace && s.pc.Dispatch? && !s.pc.wakeReady
    {
      hide After;
      if others { User(); }
      if ready {
        Others();
        WakeupHandleRead();
      }
      if others { User(); }
      Others();
    }

    lemma PollIsSafe()
      requires Valid() && s.pc.AtPoll?
      ensures pending != [] && !s.silent && pushing == {} ==> tokens > 0
      ensures quit && quitting == {} ==> tokens > 0
    {
      Reachable(trace);
    }

    method Begin()
      requires Valid() && s.pc.Outside?
      modifies this
      ensures Valid() && old(trace) <= trace && s.pc.Check?
    {
      Reachable(trace);
      assert !looping;
      looping := true;
      Record(Enter);
      Others();
      quit := false;
      Record(ClearQuit);
    }

    /** The loop condition. */
    method TestQuit() returns (stop: bool)
      requires Valid() && s.pc.Check?
      modifies this
      ensures Valid() && old(trace) <= trace && stop == quit
      ensures if stop then s.pc.Outside? && !looping else s.pc.AtPoll?
    {
      hide After;
      Others();
      stop := quit;
      if stop {
        looping := false;
      }
      Record(Test);
    }

    /** Any prefix of loop() of at most `rounds` iterations, under any interference. */
    method Loop(rounds: nat) returns (returned: bool)
      requires Valid() && s.pc.Outside?
      modifies this
      ensures Valid() && old(trace) <= trace
      ensures if returned then s.pc.Outside? && quit && !looping else s.pc.Check? && looping
    {
      hide After;
      Begin();
      var k := rounds;
      while k > 0
        invariant Valid() && old(trace) <= trace && s.pc.Check?
      {
        var stop := TestQuit();
        if stop { return true; }
        Iterate();
        k := k - 1;
      }
      Reachable(trace);
      return false;
    }

    /** The blocking read finds a token. */
    method WakeupHandleRead()
      requires Valid() && s.pc.Dispatch? && s.pc.wakeReady
      modifies this
      ensures Valid() && old(tokens) > 0 && s == Apply(old(s), ReadToken) && trace == old(trace) + [ReadToken]
    {
      WakeupReadNeverBlocks(trace);
      tokens := tokens - 1;
      Record(ReadToken);
    }
  }
}
