/** Whole runs of a server on one loop, as a state machine over the steps whose effects the methods
    of Poller, TcpConnection and TcpServer are proved to have.  A step in which one of the source's
    asserts would fail yields AssertFails. */
module ServerRuns {
  import opened Polling
  import opened TcpServing

  /** Whose callbacks a registered channel runs. */
  datatype Owner = System | Acceptor | Connection(id: nat)

  /** A functor in the loop's queue. */
  datatype Work = UserWork | Destroy(id: nat)

  /** A TcpConnection object; its number stands for its address. */
  datatype Conn = Conn(fd: int, life: Life)

  /** Where the loop is: about to evaluate its condition, handling what poll reported, or running the
      functors it swapped out. */
  datatype Stage = Check | Dispatch(active: seq<int>) | Drain(batch: seq<Work>)

  datatype State = State(
    name: string,
    stage: Stage,
    next: nat,                       // next_connect_id_
    objects: map<nat, Conn>,         // every connection ever accepted
    connections: map<string, nat>,   // connections_
    owner: map<int, Owner>,          // the poller's channels_
    interests: map<int, Interest>,   // the poller's table
    pending: seq<Work>)              // pending_functors_

  datatype Outcome = Next(state: State) | AssertFails

  datatype Event =
    | Poll(active: seq<int>)     // poll returns and active_channels_ is filled
    | Queue                      // a callback or another thread queues a functor of the user's
    | Skip                       // the next active channel's handler changes no connection
    | Accept(fd: int)            // the acceptor's handler accepts a connection
    | Close                      // a connection's handler reads end of file
    | BeginDrain
    | RunUser
    | RunDestroy
    | EndDrain

  /** The environment and the loop's position allow the event.  Poll reports watched channels, each
      once (as Poller.Poll is proved to); accept returns a descriptor that is not open. */
  predicate Enabled(s: State, e: Event) {
    match e
    case Poll(active) =>
      s.stage.Check? && Distinct(active) && forall fd :: fd in active ==> fd in s.interests && s.interests[fd].watched
    case Queue => true
    case Skip => s.stage.Dispatch? && s.stage.active != []
    case Accept(fd) =>
      s.stage.Dispatch? && s.stage.active != [] && s.stage.active[0] in s.owner &&
      s.owner[s.stage.active[0]].Acceptor? && fd >= 0 && fd !in s.owner
    case Close =>
      s.stage.Dispatch? && s.stage.active != [] && s.stage.active[0] in s.owner &&
      s.owner[s.stage.active[0]].Connection?
    case BeginDrain => s.stage.Dispatch? && s.stage.active == []
    case RunUser => s.stage.Drain? && s.stage.batch != [] && s.stage.batch[0].UserWork?
    case RunDestroy => s.stage.Drain? && s.stage.batch != [] && s.stage.batch[0].Destroy?
    case EndDrain => s.stage.Drain? && s.stage.batch == []
  }

  /** update_channel asserts that a channel with an index is registered as itself. */
  predicate RegisteredAs(s: State, id: nat) {
    && id in s.objects && s.objects[id].fd in s.owner && s.objects[id].fd in s.interests
    && s.owner[s.objects[id].fd] == Connection(id)
  }

  function NewConnection(s: State, fd: int): State {
    var id := s.next + 1;
    s.(next := id,
       objects := s.objects[id := Conn(fd, OPENED)],
       connections := s.connections[ConnectionName(s.name, id) := id],
       owner := s.owner[fd := Connection(id)],
       interests := Updated(s.interests, fd, READ_EVENT))
  }

  /** handle_close, through the close callback. */
  function HandleClose(s: State, id: nat): Outcome {
    if !RegisteredAs(s, id) || s.objects[id].life.state != Connected then AssertFails
    else if ConnectionName(s.name, id) !in s.connections then AssertFails
    else
      var c := s.objects[id];
      var life := c.life.(closes := c.life.closes + 1, events := NONE_EVENT, added := true);
      Next(s.(objects := s.objects[id := c.(life := life)],
              connections := s.connections - {ConnectionName(s.name, id)},
              interests := Updated(s.interests, c.fd, NONE_EVENT),
              pending := s.pending + [Destroy(id)]))
  }

  function ConnectDestroyed(s: State, id: nat): Outcome {
    if !RegisteredAs(s, id) || s.objects[id].life.state != Connected then AssertFails
    else
      var c := s.objects[id];
      var disabled := Updated(s.interests, c.fd, NONE_EVENT);
      var life := Life(DisConnected, c.life.history + [DisConnected], c.life.closes, NONE_EVENT, false);
      if disabled[c.fd].watched then AssertFails
      else Next(s.(objects := s.objects[id := c.(life := life)], owner := s.owner - {c.fd},
                   interests := disabled - {c.fd}))
  }

  function Handled(s: State): State
    requires s.stage.Dispatch? && s.stage.active != []
  {
    s.(stage := Dispatch(s.stage.active[1..]))
  }

  function Taken(s: State): State
    requires s.stage.Drain? && s.stage.batch != []
  {
    s.(stage := Drain(s.stage.batch[1..]))
  }

  function Step(s: State, e: Event): Outcome
    requires Enabled(s, e)
  {
    match e
    case Poll(active) => Next(s.(stage := Dispatch(active)))
    case Queue => Next(s.(pending := s.pending + [UserWork]))
    case Skip => Next(Handled(s))
    case Accept(fd) => Next(NewConnection(Handled(s), fd))
    case Close => HandleClose(Handled(s), s.owner[s.stage.active[0]].id)
    case BeginDrain => Next(s.(stage := Drain(s.pending), pending := []))
    case RunUser => Next(Taken(s))
    case RunDestroy => ConnectDestroyed(Taken(s), s.stage.batch[0].id)
    case EndDrain => Next(s.(stage := Check))
  }

  /** A server that has started and has no connections yet. */
  ghost predicate Initial(s: State) {
    && s.stage == Check && s.next == 0 && s.objects == map[] && s.connections == map[]
    && (forall fd :: fd in s.owner <==> fd in s.interests)
    && (forall fd :: fd in s.owner ==> !s.owner[fd].Connection? && s.interests[fd] == ON)
    && (forall i :: 0 <= i < |s.pending| ==> s.pending[i].UserWork?)
  }

  /** Every functor that is queued or being drained. */
  function Works(s: State): seq<Work> {
    (if s.stage.Drain? then s.stage.batch else []) + s.pending
  }

  /** A connection is in one of three places, and the tables say which. */
  ghost predicate Placed(s: State, id: nat)
    requires id in s.objects
  {
    var c := s.objects[id];
    var name := ConnectionName(s.name, id);
    1 <= id <= s.next &&
    if c.life == OPENED then
      && name in s.connections && s.connections[name] == id
      && c.fd in s.owner && s.owner[c.fd] == Connection(id)
      && Destroy(id) !in Works(s)
    else if c.life == CLOSING then
      && name !in s.connections
      && c.fd in s.owner && s.owner[c.fd] == Connection(id)
      && Destroy(id) in Works(s)
    else
      && c.life == GONE && name !in s.connections
      && (c.fd in s.owner ==> s.owner[c.fd] != Connection(id))
      && Destroy(id) !in Works(s)
  }

  /** What the poller holds for a registered descriptor. */
  ghost predicate Polled(s: State, fd: int)
    requires fd in s.owner
  {
    fd in s.interests &&
    match s.owner[fd]
    case Connection(id) =>
      id in s.objects && s.objects[id].fd == fd &&
      s.interests[fd] == if s.objects[id].life == CLOSING then OFF else ON
    case _ => s.interests[fd] == ON
  }

  ghost predicate NoDestroy(works: seq<Work>) {
    forall i :: 0 <= i < |works| ==> works[i].UserWork?
  }

  /** What does not depend on the active channels and the order of the queue. */
  ghost predicate Core(s: State) {
    && (forall id :: id in s.objects ==> Placed(s, id))
    && (forall fd :: fd in s.owner <==> fd in s.interests)
    && (forall fd :: fd in s.owner ==> Polled(s, fd))
    && (forall n :: n in s.connections ==>
          s.connections[n] in s.objects && n == ConnectionName(s.name, s.connections[n]))
  }

  ghost predicate Inv(s: State) {
    && Core(s)
    && (forall i :: 0 <= i < |Works(s)| && Works(s)[i].Destroy? ==> Works(s)[i].id in s.objects)
    && (forall i, j :: 0 <= i < j < |Works(s)| && Works(s)[i].Destroy? ==> Works(s)[i] != Works(s)[j])
    && (s.stage.Dispatch? ==> Distinct(s.stage.active))
    && (s.stage.Dispatch? ==> forall fd :: fd in s.stage.active ==> fd in s.interests && s.interests[fd] == ON)
    && (!s.stage.Dispatch? ==> NoDestroy(s.pending))
  }

  lemma InitialInv(s: State)
    requires Initial(s)
    ensures Inv(s)
  {
  }

  lemma FreshNumber(s: State)
    requires Core(s)
    ensures s.next + 1 !in s.objects && ConnectionName(s.name, s.next + 1) !in s.connections
  {
    var id := s.next + 1;
    forall k | k in s.objects ensures k <= s.next { assert Placed(s, k); }
    if ConnectionName(s.name, id) in s.connections {
      NamesAreInjective(s.name, s.connections[ConnectionName(s.name, id)], id);
    }
  }

  lemma AcceptPlaces(s: State, fd: int, k: nat)
    requires Core(s) && fd !in s.owner && (k in s.objects || k == s.next + 1)
    requires Destroy(s.next + 1) !in Works(s)
    ensures Placed(NewConnection(s, fd), k)
  {
    FreshNumber(s);
    assert Works(NewConnection(s, fd)) == Works(s);
    if k in s.objects {
      assert Placed(s, k);
      if ConnectionName(s.name, k) == ConnectionName(s.name, s.next + 1) { NamesAreInjective(s.name, k, s.next + 1); }
    }
  }

  lemma AcceptKeepsCore(s: State, fd: int)
    requires Core(s) && fd !in s.owner
    requires Destroy(s.next + 1) !in Works(s)
    ensures Core(NewConnection(s, fd))
  {
    var s' := NewConnection(s, fd);
    FreshNumber(s);
    forall k | k in s'.objects ensures Placed(s', k) { AcceptPlaces(s, fd, k); }
    assert In in READ_EVENT.bits;
    forall f | f in s'.owner ensures Polled(s', f) {
      if f != fd { assert Polled(s, f); }
    }
  }

  lemma ClosePlaces(s: State, id: nat, k: nat)
    requires Core(s) && id in s.objects && s.objects[id].life == OPENED && k in s.objects
    ensures RegisteredAs(s, id) && HandleClose(s, id).Next? && Placed(HandleClose(s, id).state, k)
  {
    assert Placed(s, id);
    var s' := HandleClose(s, id).state;
    assert Works(s') == Works(s) + [Destroy(id)];
    if k != id {
      assert Placed(s, k);
      if ConnectionName(s.name, k) == ConnectionName(s.name, id) { NamesAreInjective(s.name, k, id); }
    } else {
      assert Works(s')[|Works(s)|] == Destroy(id);
    }
  }

  lemma CloseKeepsCore(s: State, id: nat)
    requires Core(s) && id in s.objects && s.objects[id].life == OPENED
    ensures HandleClose(s, id).Next? && Core(HandleClose(s, id).state)
  {
    ClosePlaces(s, id, id);
    var s' := HandleClose(s, id).state;
    forall k | k in s'.objects ensures Placed(s', k) { ClosePlaces(s, id, k); }
    forall f | f in s'.owner ensures Polled(s', f) { assert Polled(s, f); }
  }

  lemma DestroyPlaces(s: State, id: nat, k: nat)
    requires Core(s) && id in s.objects && s.objects[id].life == CLOSING && k in s.objects
    requires s.stage.Drain? && s.stage.batch != [] && s.stage.batch[0] == Destroy(id)
    requires Destroy(id) !in Works(s)[1..]
    ensures ConnectDestroyed(Taken(s), id).Next? && Placed(ConnectDestroyed(Taken(s), id).state, k)
  {
    assert Placed(s, id);
    var s' := ConnectDestroyed(Taken(s), id).state;
    assert Works(s) == [Destroy(id)] + Works(s');
    assert Works(s)[1..] == Works(s');
    assert Placed(s, k);
  }

  lemma DestroyKeepsCore(s: State, id: nat)
    requires Core(s) && id in s.objects && s.objects[id].life == CLOSING
    requires s.stage.Drain? && s.stage.batch != [] && s.stage.batch[0] == Destroy(id)
    requires Destroy(id) !in Works(s)[1..]
    ensures ConnectDestroyed(Taken(s), id).Next? && Core(ConnectDestroyed(Taken(s), id).state)
  {
    DestroyPlaces(s, id, id);
    var s' := ConnectDestroyed(Taken(s), id).state;
    forall k | k in s'.objects ensures Placed(s', k) { DestroyPlaces(s, id, k); }
    forall f | f in s'.owner ensures Polled(s', f) { assert Polled(s, f); }
  }

  /** Core does not depend on the stage, nor on where in Works a functor is. */
  lemma CoreKept(s: State, s': State)
    requires Core(s)
    requires s'.name == s.name && s'.next == s.next && s'.objects == s.objects && s'.connections == s.connections
    requires s'.owner == s.owner && s'.interests == s.interests
    requires forall id :: Destroy(id) in Works(s) <==> Destroy(id) in Works(s')
    ensures Core(s')
  {
    forall k | k in s'.objects ensures Placed(s', k) { assert Placed(s, k); }
    forall f | f in s'.owner ensures Polled(s', f) { assert Polled(s, f); }
  }

  /** An active channel that is a connection's belongs to one that is open. */
  lemma ActiveIsOpen(s: State, fd: int)
    requires Inv(s) && fd in s.interests && s.interests[fd] == ON && s.owner[fd].Connection?
    ensures var id := s.owner[fd].id;
            id in s.objects && s.objects[id].fd == fd && s.objects[id].life == OPENED && Destroy(id) !in Works(s)
  {
    assert Polled(s, fd);
    assert Placed(s, s.owner[fd].id);
  }

  lemma PollKeepsInv(s: State, active: seq<int>)
    requires Inv(s) && Enabled(s, Poll(active))
    ensures Inv(Step(s, Poll(active)).state)
  {
    var s' := Step(s, Poll(active)).state;
    assert Works(s') == Works(s);
    CoreKept(s, s');
    forall fd | fd in active ensures s.interests[fd] == ON { assert Polled(s, fd); }
  }

  lemma QueueKeepsInv(s: State)
    requires Inv(s)
    ensures Inv(Step(s, Queue).state)
  {
    var s' := Step(s, Queue).state;
    assert Works(s') == Works(s) + [UserWork];
    CoreKept(s, s');
  }

  lemma HandledKeepsInv(s: State)
    requires Inv(s) && s.stage.Dispatch? && s.stage.active != []
    ensures Inv(Handled(s)) && s.stage.active[0] !in Handled(s).stage.active
  {
    assert Works(Handled(s)) == Works(s);
    CoreKept(s, Handled(s));
    forall fd | fd in Handled(s).stage.active ensures fd in s.stage.active && fd != s.stage.active[0] {}
  }

  lemma AcceptKeepsInv(s: State, fd: int)
    requires Inv(s) && Enabled(s, Accept(fd))
    ensures Inv(Step(s, Accept(fd)).state)
  {
    var h, s' := Handled(s), Step(s, Accept(fd)).state;
    HandledKeepsInv(s);
    FreshNumber(h);
    assert Works(s') == Works(h);
    AcceptKeepsCore(h, fd);
  }

  lemma CloseKeepsInv(s: State)
    requires Inv(s) && Enabled(s, Close)
    ensures Step(s, Close).Next? && Inv(Step(s, Close).state)
  {
    var h, fd := Handled(s), s.stage.active[0];
    var id := s.owner[fd].id;
    HandledKeepsInv(s);
    assert fd in s.stage.active;
    ActiveIsOpen(h, fd);
    CloseKeepsCore(h, id);
    CloseQueues(h, id);
  }

  /** Closing queues one destruction, of a connection for which none was queued. */
  lemma CloseQueues(h: State, id: nat)
    requires HandleClose(h, id).Next? && id in h.objects && Destroy(id) !in Works(h)
    requires forall i :: 0 <= i < |Works(h)| && Works(h)[i].Destroy? ==> Works(h)[i].id in h.objects
    requires forall i, j :: 0 <= i < j < |Works(h)| && Works(h)[i].Destroy? ==> Works(h)[i] != Works(h)[j]
    ensures var w := Works(HandleClose(h, id).state);
            && (forall i :: 0 <= i < |w| && w[i].Destroy? ==> w[i].id in h.objects)
            && (forall i, j :: 0 <= i < j < |w| && w[i].Destroy? ==> w[i] != w[j])
  {
    assert Works(HandleClose(h, id).state) == Works(h) + [Destroy(id)];
  }

  lemma BeginDrainKeepsInv(s: State)
    requires Inv(s) && Enabled(s, BeginDrain)
    ensures Inv(Step(s, BeginDrain).state)
  {
    var s' := Step(s, BeginDrain).state;
    assert Works(s') == Works(s);
    CoreKept(s, s');
  }

  lemma TakenWorks(s: State)
    requires s.stage.Drain? && s.stage.batch != []
    ensures Works(s) == [s.stage.batch[0]] + Works(Taken(s)) && Works(s)[1..] == Works(Taken(s))
  {
  }

  lemma RunUserKeepsInv(s: State)
    requires Inv(s) && Enabled(s, RunUser)
    ensures Inv(Step(s, RunUser).state)
  {
    TakenWorks(s);
    CoreKept(s, Taken(s));
    ShorterWorks(s, Taken(s));
  }

  /** Removing the first functor keeps the rest distinct. */
  lemma ShorterWorks(s: State, s': State)
    requires Inv(s) && Works(s) != [] && Works(s') == Works(s)[1..]
    ensures forall i :: 0 <= i < |Works(s')| && Works(s')[i].Destroy? ==> Works(s')[i].id in s.objects
    ensures forall i, j :: 0 <= i < j < |Works(s')| && Works(s')[i].Destroy? ==> Works(s')[i] != Works(s')[j]
    ensures Works(s)[0].Destroy? ==> Works(s)[0] !in Works(s')
  {
    var w, w' := Works(s), Works(s');
    forall i | 0 <= i < |w'| ensures w'[i] == w[i + 1] {}
  }

  lemma RunDestroyKeepsInv(s: State)
    requires Inv(s) && Enabled(s, RunDestroy)
    ensures Step(s, RunDestroy).Next? && Inv(Step(s, RunDestroy).state)
  {
    var id := s.stage.batch[0].id;
    TakenWorks(s);
    ShorterWorks(s, Taken(s));
    assert Works(s)[0] == Destroy(id) && Placed(s, id);
    DestroyKeepsCore(s, id);
    assert Works(Step(s, RunDestroy).state) == Works(Taken(s));
  }

  lemma EndDrainKeepsInv(s: State)
    requires Inv(s) && Enabled(s, EndDrain)
    ensures Inv(Step(s, EndDrain).state)
  {
    var s' := Step(s, EndDrain).state;
    assert Works(s') == Works(s);
    CoreKept(s, s');
  }

  /** No assert fails in a step from a good state, and the next state is good. */
  lemma StepKeepsInv(s: State, e: Event)
    requires Inv(s) && Enabled(s, e)
    ensures Step(s, e).Next? && Inv(Step(s, e).state)
  {
    match e
    case Poll(active) => PollKeepsInv(s, active);
    case Queue => QueueKeepsInv(s);
    case Skip => HandledKeepsInv(s);
    case Accept(fd) => AcceptKeepsInv(s, fd);
    case Close => CloseKeepsInv(s);
    case BeginDrain => BeginDrainKeepsInv(s);
    case RunUser => RunUserKeepsInv(s);
    case RunDestroy => RunDestroyKeepsInv(s);
    case EndDrain => EndDrainKeepsInv(s);
  }

  datatype Result = Reached(state: State) | Failed | Impossible

  /** A whole run: where it leads, unless an assert fails or an event was not possible. */
  function Run(s: State, es: seq<Event>): Result
    decreases |es|
  {
    if es == [] then Reached(s)
    else if !Enabled(s, es[0]) then Impossible
    else
      match Step(s, es[0])
      case AssertFails => Failed
      case Next(s') => Run(s', es[1..])
  }

  /** In no run does an assert of the connection life cycle, of the poller's registrations or of the
      erase from `connections_` fail. */
  lemma {:induction false} NoAssertFails(s: State, es: seq<Event>)
    requires Inv(s)
    ensures Run(s, es) != Failed
    ensures Run(s, es).Reached? ==> Inv(Run(s, es).state)
    decreases |es|
  {
    if es != [] && Enabled(s, es[0]) {
      StepKeepsInv(s, es[0]);
      NoAssertFails(Step(s, es[0]).state, es[1..]);
    }
  }

  /** The system channels never change, and every other registered channel is a connection's. */
  ghost predicate SameSystem(s: State, s': State) {
    && s'.name == s.name
    && forall fd :: (fd in s.owner && !s.owner[fd].Connection?) <==> (fd in s'.owner && !s'.owner[fd].Connection?)
  }

  /** One connection's life goes forward only, one stage at a time; nobody is forgotten. */
  ghost predicate Forward(s: State, s': State) {
    forall id :: id in s.objects ==>
      id in s'.objects && s'.objects[id].fd == s.objects[id].fd && Age(s.objects[id].life) <= Age(s'.objects[id].life)
  }

  function Age(l: Life): nat {
    if l == OPENED then 0 else if l == CLOSING then 1 else 2
  }

  lemma CloseMoves(s: State)
    requires Inv(s) && Enabled(s, Close)
    ensures Step(s, Close).Next? && SameSystem(s, Step(s, Close).state) && Forward(s, Step(s, Close).state)
  {
    CloseKeepsInv(s);
    assert s.stage.active[0] in s.stage.active;
    ActiveIsOpen(s, s.stage.active[0]);
  }

  lemma DestroyMoves(s: State)
    requires Inv(s) && Enabled(s, RunDestroy)
    ensures Step(s, RunDestroy).Next?
    ensures SameSystem(s, Step(s, RunDestroy).state) && Forward(s, Step(s, RunDestroy).state)
  {
    RunDestroyKeepsInv(s);
    assert Works(s)[0] == s.stage.batch[0] && Placed(s, s.stage.batch[0].id);
  }

  lemma AcceptMoves(s: State, fd: int)
    requires Inv(s) && Enabled(s, Accept(fd))
    ensures Step(s, Accept(fd)).Next?
    ensures SameSystem(s, Step(s, Accept(fd)).state) && Forward(s, Step(s, Accept(fd)).state)
  {
    FreshNumber(s);
  }

  lemma StepMoves(s: State, e: Event)
    requires Inv(s) && Enabled(s, e)
    ensures Step(s, e).Next? && SameSystem(s, Step(s, e).state) && Forward(s, Step(s, e).state)
  {
    match e
    case Accept(fd) => AcceptMoves(s, fd);
    case Close => CloseMoves(s);
    case RunDestroy => DestroyMoves(s);
    case _ =>
  }

  lemma {:induction false} RunMoves(s: State, es: seq<Event>)
    requires Inv(s) && Run(s, es).Reached?
    ensures SameSystem(s, Run(s, es).state) && Forward(s, Run(s, es).state)
    decreases |es|
  {
    if es != [] {
      StepKeepsInv(s, es[0]);
      StepMoves(s, es[0]);
      RunMoves(Step(s, es[0]).state, es[1..]);
    }
  }

  /** The descriptors of the connections in `connections_`. */
  ghost function OpenFds(s: State): set<int> {
    set n | n in s.connections && s.connections[n] in s.objects :: s.objects[s.connections[n]].fd
  }

  /** These descriptors, all watched for reading. */
  function Watched(fds: set<int>): map<int, Interest> {
    map fd | fd in fds :: ON
  }

  /** Whole-run agreement.  Whenever the loop evaluates its condition, the poller watches, for reading,
      exactly the channels it started with and one channel per entry of `connections_`, and no
      connect_destoryed is queued. */
  lemma WholeRunAgreement(s: State, es: seq<Event>)
    requires Initial(s) && Run(s, es).Reached? && Run(s, es).state.stage.Check?
    ensures var t := Run(s, es).state;
            && NoDestroy(t.pending) && (forall w <- t.pending :: w == UserWork)
            && (forall fd <- t.interests :: t.interests[fd] == Interest(Mask({In, Pri}), true))
            && t.interests == Watched(s.owner.Keys + OpenFds(t))
            && (s.owner.Keys !! OpenFds(t))
            && (forall n :: n in t.connections ==> t.connections[n] in t.objects)
            && (forall m, n :: m in t.connections && n in t.connections && m != n ==>
                  t.objects[t.connections[m]].fd != t.objects[t.connections[n]].fd)
  {
    InitialInv(s);
    NoAssertFails(s, es);
    RunMoves(s, es);
    var t := Run(s, es).state;
    assert Works(t) == t.pending;
    forall id | id in t.objects ensures t.objects[id].life != CLOSING { assert Placed(t, id); }
    forall n | n in t.connections
      ensures var id := t.connections[n];
              id in t.objects && t.objects[id].fd in t.owner && t.owner[t.objects[id].fd] == Connection(id)
    {
      assert Placed(t, t.connections[n]);
    }
    var all := Watched(s.owner.Keys + OpenFds(t));
    forall fd ensures fd in t.interests.Keys <==> fd in all.Keys {
      if fd in t.owner {
        assert Polled(t, fd);
        if t.owner[fd].Connection? {
          assert Placed(t, t.owner[fd].id);
          assert ConnectionName(t.name, t.owner[fd].id) in t.connections;
        }
      }
    }
    forall fd | fd in t.interests.Keys ensures t.interests[fd] == all[fd] { assert Polled(t, fd); }
    SameTable(t.interests, all);
  }

  /** The life of a connection, in every run and at every moment: it is connected, or connected and
      closed once, or disconnected; its callback has been told of exactly the transitions it has
      made; it is in `connections_` exactly while it is open; and when the loop evaluates its
      condition it is never between close and destruction. */
  lemma ConnectionLifeCycle(s: State, es: seq<Event>, id: nat)
    requires Initial(s) && Run(s, es).Reached? && id in Run(s, es).state.objects
    ensures var t := Run(s, es).state;
            var life := t.objects[id].life;
            && life in {OPENED, CLOSING, GONE}
            && (life == OPENED <==> ConnectionName(t.name, id) in t.connections)
            && (life == CLOSING <==> Destroy(id) in Works(t))
            && (t.stage.Check? ==> life != CLOSING)
  {
    InitialInv(s);
    NoAssertFails(s, es);
    var t := Run(s, es).state;
    assert Placed(t, id);
    if t.stage.Check? { assert Works(t) == t.pending; }
  }

  /** The same, field by field.  While its name is in the map a connection is connected, its callback has
      been called once, and it is watched for reading.  Between its close and its destruction, which
      is queued or in the batch being run, it is still connected, and registered but not watched.
      After that it is disconnected, and its callback has been called a second time. */
  lemma LifeFieldByField(s: State, es: seq<Event>, id: nat)
    requires Initial(s) && Run(s, es).Reached? && id in Run(s, es).state.objects
    ensures var t := Run(s, es).state;
            var life, fd := t.objects[id].life, t.objects[id].fd;
            var queued := Destroy(id) in t.pending || (t.stage.Drain? && Destroy(id) in t.stage.batch);
            if ConnectionName(t.name, id) in t.connections then
              && life.state == Connected && life.history == [Connected] && life.closes == 0 && !queued
              && fd in t.interests && t.interests[fd] == Interest(Mask({In, Pri}), true)
            else if queued then
              && life.state == Connected && life.history == [Connected] && life.closes == 1
              && fd in t.interests && t.interests[fd] == Interest(Mask({}), false)
            else
              life.state == DisConnected && life.history == [Connected, DisConnected] && life.closes == 1
  {
    InitialInv(s);
    NoAssertFails(s, es);
    var t := Run(s, es).state;
    assert Placed(t, id);
    if t.objects[id].life != GONE {
      assert Polled(t, t.objects[id].fd);
    }
  }

  /** From any moment of a run on, a connection only moves on: opened, closing, gone. */
  lemma ConnectionsOnlyAge(s: State, es: seq<Event>, more: seq<Event>, id: nat)
    requires Initial(s) && Run(s, es).Reached? && id in Run(s, es).state.objects
    requires Run(Run(s, es).state, more).Reached?
    ensures var t, u := Run(s, es).state, Run(Run(s, es).state, more).state;
            && id in u.objects && u.objects[id].fd == t.objects[id].fd
            && Age(t.objects[id].life) <= Age(u.objects[id].life)
            && t.objects[id].life.history <= u.objects[id].life.history
            && t.objects[id].life.closes <= u.objects[id].life.closes
            && (t.objects[id].life.state == DisConnected ==> u.objects[id].life == t.objects[id].life)
  {
    InitialInv(s);
    NoAssertFails(s, es);
    NoAssertFails(Run(s, es).state, more);
    RunMoves(Run(s, es).state, more);
    assert Placed(Run(s, es).state, id) && Placed(Run(Run(s, es).state, more).state, id);
  }

  /** Dispatch safety.  At every moment of a dispatch pass, whatever the handlers before it have
      accepted or closed, each channel still to be handled occurs once, is registered and
      watched, and, when it is a connection's, belongs to a connection that is connected and
      still in `connections_`; so its close erases exactly one entry. */
  lemma DispatchIsSafe(s: State, es: seq<Event>, fd: int)
    requires Initial(s) && Run(s, es).Reached? && Run(s, es).state.stage.Dispatch?
    requires fd in Run(s, es).state.stage.active
    ensures var t := Run(s, es).state;
            && Distinct(t.stage.active)
            && fd in t.owner && fd in t.interests && t.interests[fd] == ON
            && (t.owner[fd].Connection? ==>
                  var id := t.owner[fd].id;
                  && id in t.objects && t.objects[id].life == OPENED
                  && HandleClose(t, id).Next?
                  && |HandleClose(t, id).state.connections| == |t.connections| - 1)
  {
    InitialInv(s);
    NoAssertFails(s, es);
    var t := Run(s, es).state;
    if t.owner[fd].Connection? {
      ActiveIsOpen(t, fd);
      CloseKeepsCore(t, t.owner[fd].id);
      var name := ConnectionName(t.name, t.owner[fd].id);
      assert Placed(t, t.owner[fd].id);
      assert (t.connections - {name}).Keys == t.connections.Keys - {name};
    }
  }

  // Counting.

  function AcceptCount(es: seq<Event>): nat {
    if es == [] then 0 else (if es[0].Accept? then 1 else 0) + AcceptCount(es[1..])
  }

  function CloseCount(es: seq<Event>): nat {
    if es == [] then 0 else (if es[0].Close? then 1 else 0) + CloseCount(es[1..])
  }

  function DestroyCount(es: seq<Event>): nat {
    if es == [] then 0 else (if es[0].RunDestroy? then 1 else 0) + DestroyCount(es[1..])
  }

  lemma CloseEffect(s: State)
    requires Inv(s) && Enabled(s, Close)
    ensures var fd := s.stage.active[0];
            var id := s.owner[fd].id;
            && id in s.objects && s.objects[id] == Conn(fd, OPENED)
            && ConnectionName(s.name, id) in s.connections && s.connections[ConnectionName(s.name, id)] == id
            && Step(s, Close) == Next(Handled(s).(
                 objects := s.objects[id := Conn(fd, CLOSING)],
                 connections := s.connections - {ConnectionName(s.name, id)},
                 interests := s.interests[fd := OFF],
                 pending := s.pending + [Destroy(id)]))
  {
    var fd := s.stage.active[0];
    ActiveIsOpen(s, fd);
    CloseKeepsInv(s);
    assert Placed(s, s.owner[fd].id);
  }

  /** The connection `id` is the one that the next functor destroys. */
  ghost predicate Destroys(s: State, id: nat) {
    Inv(s) && Enabled(s, RunDestroy) && s.stage.batch[0] == Destroy(id)
  }

  lemma DestroyEffect(s: State, id: nat)
    requires Destroys(s, id)
    ensures id in s.objects && s.objects[id].life == CLOSING
    ensures var fd := s.objects[id].fd;
            && fd in s.owner && s.owner[fd] == Connection(id)
            && Step(s, RunDestroy) == Next(Taken(s).(
                 objects := s.objects[id := Conn(fd, GONE)], owner := s.owner - {fd}, interests := s.interests - {fd}))
  {
    RunDestroyKeepsInv(s);
    assert Works(s)[0] == Destroy(id) && Placed(s, id);
    UpdatedThenRemoved(s.interests, s.objects[id].fd, NONE_EVENT);
    hide Inv, Polled;
  }

  lemma UpdatedThenRemoved(m: map<int, Interest>, fd: int, events: Mask)
    ensures Updated(m, fd, events) - {fd} == m - {fd}
  {
    SameTable(Updated(m, fd, events) - {fd}, m - {fd});
  }

  lemma CountsOfMaps<K, V>(m: map<K, V>, k: K, v: V)
    ensures |m[k := v]| == |m| + (if k in m then 0 else 1)
    ensures |m - {k}| == |m| - (if k in m then 1 else 0)
  {
    var less := m - {k};
    assert less.Keys == m.Keys - {k};
    assert m[k := v].Keys == m.Keys + {k};
    assert |m| == |m.Keys| && |less| == |less.Keys| && |m[k := v]| == |m[k := v].Keys|;
  }

  lemma AcceptCounts(s: State, fd: int)
    requires Inv(s) && Enabled(s, Accept(fd))
    ensures var t := Step(s, Accept(fd)).state;
            && t.next == s.next + 1 && |t.objects| == |s.objects| + 1
            && |t.connections| == |s.connections| + 1 && |t.owner| == |s.owner| + 1
  {
    FreshNumber(s);
    var id := s.next + 1;
    CountsOfMaps(s.objects, id, Conn(fd, OPENED));
    CountsOfMaps(s.connections, ConnectionName(s.name, id), id);
    CountsOfMaps(s.owner, fd, Connection(id));
  }

  lemma CloseCounts(s: State)
    requires Inv(s) && Enabled(s, Close)
    ensures Step(s, Close).Next?
    ensures var t := Step(s, Close).state;
            && t.next == s.next && |t.objects| == |s.objects|
            && |t.connections| == |s.connections| - 1 && |t.owner| == |s.owner|
  {
    CloseEffect(s);
    var fd := s.stage.active[0];
    var id := s.owner[fd].id;
    CountsOfMaps(s.objects, id, Conn(fd, CLOSING));
    CountsOfMaps(s.connections, ConnectionName(s.name, id), id);
  }

  lemma DestroyCounts(s: State)
    requires Inv(s) && Enabled(s, RunDestroy)
    ensures Step(s, RunDestroy).Next?
    ensures var t := Step(s, RunDestroy).state;
            && t.next == s.next && |t.objects| == |s.objects|
            && |t.connections| == |s.connections| && |t.owner| == |s.owner| - 1
  {
    hide Inv, Step, Works;
    var id := s.stage.batch[0].id;
    DestroyEffect(s, id);
    var fd := s.objects[id].fd;
    CountsOfMaps(s.objects, id, Conn(fd, GONE));
    CountsOfMaps(s.owner, fd, Connection(id));
  }

  lemma StepCounts(s: State, e: Event)
    requires Inv(s) && Enabled(s, e)
    ensures Step(s, e).Next?
    ensures var t := Step(s, e).state;
            && t.next == s.next + (if e.Accept? then 1 else 0)
            && |t.objects| == |s.objects| + (if e.Accept? then 1 else 0)
            && |t.connections| == |s.connections| + (if e.Accept? then 1 else if e.Close? then -1 else 0)
            && |t.owner| == |s.owner| + (if e.Accept? then 1 else if e.RunDestroy? then -1 else 0)
  {
    match e
    case Accept(fd) => AcceptCounts(s, fd);
    case Close => CloseCounts(s);
    case RunDestroy => DestroyCounts(s);
    case _ =>
  }

  /** Nothing is lost or counted twice: every accept makes one connection, every end of file takes one out
      of the map, and every destruction one registration out of the poller. */
  lemma {:induction false} RunCounts(s: State, es: seq<Event>)
    requires Inv(s) && Run(s, es).Reached?
    ensures var t := Run(s, es).state;
            && t.next == s.next + AcceptCount(es)
            && |t.objects| == |s.objects| + AcceptCount(es)
            && |t.connections| == |s.connections| + AcceptCount(es) - CloseCount(es)
            && |t.owner| == |s.owner| + AcceptCount(es) - DestroyCount(es)
    decreases |es|
  {
    if es != [] {
      StepKeepsInv(s, es[0]);
      StepCounts(s, es[0]);
      RunCounts(Step(s, es[0]).state, es[1..]);
    }
  }

  lemma {:induction false} RunConcat(s: State, es: seq<Event>, more: seq<Event>)
    requires Run(s, es).Reached?
    ensures Run(s, es + more) == Run(Run(s, es).state, more)
    decreases |es|
  {
    if es == [] {
      assert es + more == more;
    } else {
      assert (es + more)[1..] == es[1..] + more;
      RunConcat(Step(s, es[0]).state, es[1..], more);
    }
  }

  // One connection's whole life.

  lemma RunCons(s: State, e: Event, es: seq<Event>)
    requires Enabled(s, e) && Step(s, e).Next?
    ensures Run(s, [e] + es) == Run(Step(s, e).state, es)
  {
    assert ([e] + es)[1..] == es;
  }

  /** An iteration in which the acceptor accepts one connection and nothing is queued. */
  lemma AcceptIteration(s: State, acceptor: int, fd: int)
    requires Initial(s) && s.pending == [] && acceptor in s.owner && s.owner[acceptor] == Acceptor
    requires fd >= 0 && fd !in s.owner
    ensures Run(s, [Poll([acceptor])] + ([Accept(fd)] + ([BeginDrain] + ([EndDrain] + [])))) ==
            Reached(NewConnection(s, fd))
  {
    var s1 := Step(s, Poll([acceptor])).state;
    var s2 := Step(s1, Accept(fd)).state;
    var s3 := Step(s2, BeginDrain).state;
    var s4 := Step(s3, EndDrain).state;
    assert s1.stage.active[1..] == [];
    RunCons(s3, EndDrain, []);
    RunCons(s2, BeginDrain, [EndDrain] + []);
    RunCons(s1, Accept(fd), [BeginDrain] + ([EndDrain] + []));
    RunCons(s, Poll([acceptor]), [Accept(fd)] + ([BeginDrain] + ([EndDrain] + [])));
    assert s4 == NewConnection(s, fd);
  }

  lemma PutAndTaken<K, V>(m: map<K, V>, k: K, v: V)
    requires k !in m
    ensures m[k := v] - {k} == m
  {
    assert (m[k := v] - {k}).Keys == m.Keys;
    forall x | x in m.Keys
      ensures (m[k := v] - {k})[x] == m[x]
    {
    }
  }

  /** That connection's handler then reads end of file. */
  lemma CloseDispatch(s: State, t: State, fd: int) returns (u: State)
    requires Initial(s) && s.pending == [] && fd >= 0 && fd !in s.owner && t == NewConnection(s, fd) && Inv(t)
    ensures Inv(u) && u.stage == Drain([Destroy(s.next + 1)]) && u.pending == []
    ensures Run(t, [Poll([fd])] + ([Close] + ([BeginDrain] + []))) == Reached(u)
    ensures u.objects == t.objects[s.next + 1 := Conn(fd, CLOSING)]
    ensures u.connections == t.connections - {ConnectionName(s.name, s.next + 1)} && u.owner == t.owner
    ensures u.name == s.name
  {
    hide Inv, HandleClose;
    assert In in READ_EVENT.bits;
    PollKeepsInv(t, [fd]);
    var t1 := Step(t, Poll([fd])).state;
    assert t1.stage.active[1..] == [];
    CloseEffect(t1);
    CloseKeepsInv(t1);
    var t2 := Step(t1, Close).state;
    BeginDrainKeepsInv(t2);
    u := Step(t2, BeginDrain).state;
    RunCons(t2, BeginDrain, []);
    RunCons(t1, Close, [BeginDrain] + []);
    RunCons(t, Poll([fd]), [Close] + ([BeginDrain] + []));
  }

  /** And its destruction runs in the same iteration. */
  lemma DestroyDrain(u: State, id: nat) returns (v: State)
    requires Inv(u) && u.stage == Drain([Destroy(id)]) && u.pending == []
    ensures Run(u, [RunDestroy] + ([EndDrain] + [])) == Reached(v) && v.stage == Check && v.pending == []
    ensures id in u.objects && v.objects == u.objects[id := Conn(u.objects[id].fd, GONE)]
    ensures v.connections == u.connections && v.owner == u.owner - {u.objects[id].fd}
  {
    DestroyEffect(u, id);
    var u1 := Step(u, RunDestroy).state;
    v := Step(u1, EndDrain).state;
    RunCons(u1, EndDrain, []);
    RunCons(u, RunDestroy, [EndDrain] + []);
  }

  /** One connection's whole life, in two iterations: it is accepted, reads end of file, and is gone; its
      callback has been called twice, and the map and the poller are as they were. */
  lemma OneWholeLife(s: State, acceptor: int, fd: int) returns (es: seq<Event>, v: State)
    requires Initial(s) && s.pending == [] && acceptor in s.owner && s.owner[acceptor] == Acceptor
    requires fd >= 0 && fd !in s.owner
    ensures Run(s, es) == Reached(v) && v.stage == Check && v.pending == []
    ensures v.objects == map[s.next + 1 := Conn(fd, Life(DisConnected, [Connected, DisConnected], 1, Mask({}), false))]
    ensures v.connections == s.connections && v.owner == s.owner
  {
    var first := [Poll([acceptor])] + ([Accept(fd)] + ([BeginDrain] + ([EndDrain] + [])));
    AcceptIteration(s, acceptor, fd);
    InitialInv(s);
    NoAssertFails(s, first);
    var id, t := s.next + 1, NewConnection(s, fd);
    var u := CloseDispatch(s, t, fd);
    v := DestroyDrain(u, id);
    var second := [Poll([fd])] + ([Close] + ([BeginDrain] + []));
    var third := [RunDestroy] + ([EndDrain] + []);
    RunConcat(s, first, second);
    RunConcat(s, first + second, third);
    es := first + second + third;
    PutAndTaken(s.connections, ConnectionName(s.name, id), id);
    PutAndTaken(s.owner, fd, Connection(id));
    assert v.objects.Keys == {id};
  }
}
