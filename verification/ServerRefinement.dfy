/** The classes of TcpServing carry out the machine of ServerRuns: whatever order accepts, closes,
    queued functors and drains come in, what the objects hold is the state the machine has reached,
    so what is proved of its runs holds of theirs. */
module ServerRefinement {
  import opened Options
  import opened Polling
  import opened TcpServing
  import opened ServerRuns

  // ------------------------------------------------------------------ what the objects represent

  /** What the objects hold at one moment. */
  datatype View = View(
    next: nat,
    connections: map<string, TcpConnection>,
    channels: map<int, Channel>,
    interests: map<int, Interest>,
    pending: seq<Functor>)

  ghost function ViewOf(server: TcpServer): View
    requires Bijection(server.loop.poller.pollfds, server.loop.poller.slot)
    reads server, server.loop, server.loop.poller
  {
    View(server.nextConnectId, server.connections, server.loop.poller.channels,
         server.loop.poller.Interests(), server.loop.pending)
  }

  /** A connection object is as far as the machine says. */
  ghost predicate Alive(c: TcpConnection, o: Conn)
    reads c, c.channel`events, c.channel`added
  {
    c.channel.fd == o.fd && c.Now() == o.life
  }

  lemma IsAlive(c: TcpConnection, o: Conn)
    requires c.channel.fd == o.fd && c.Now() == o.life
    ensures Alive(c, o)
  {
  }

  /** So are they all. */
  ghost predicate Lives(conns: map<nat, TcpConnection>, objects: map<nat, Conn>)
    reads *
  {
    && conns.Keys == objects.Keys
    && forall id :: id in conns ==> Alive(conns[id], objects[id])
  }

  /** Connection objects are numbered as they are named, and share neither identity nor channel. */
  ghost predicate Numbered(name: string, conns: map<nat, TcpConnection>) {
    && (forall id :: id in conns ==> conns[id].name == ConnectionName(name, id))
    && forall i, j :: i in conns && j in conns && i != j ==>
                     conns[i] != conns[j] && conns[i].channel != conns[j].channel
  }

  /** Functors and the machine's works, one for one. */
  ghost predicate Same(functors: seq<Functor>, conns: map<nat, TcpConnection>, works: seq<Work>) {
    && |functors| == |works|
    && forall i :: 0 <= i < |works| ==>
         match works[i]
         case UserWork => functors[i].UserFunctor?
         case Destroy(id) => id in conns && functors[i] == DestroyFunctor(conns[id])
  }

  ghost predicate Matches(v: View, conns: map<nat, TcpConnection>, s: State) {
    && v.next == s.next && v.interests == s.interests
    && v.connections.Keys == s.connections.Keys
    && (forall n :: n in s.connections ==>
          s.connections[n] in conns && v.connections[n] == conns[s.connections[n]])
    && v.channels.Keys == s.owner.Keys
    && (forall fd :: fd in s.owner && s.owner[fd].Connection? ==>
          s.owner[fd].id in conns && v.channels[fd] == conns[s.owner[fd].id].channel)
    && Same(v.pending, conns, s.pending)
  }

  ghost predicate Represents(server: TcpServer, conns: map<nat, TcpConnection>, s: State)
    reads *
  {
    && server.loop.poller.Valid() && server.serverName == s.name
    && Numbered(s.name, conns) && Lives(conns, s.objects)
    && Matches(ViewOf(server), conns, s)
  }

  // ------------------------------------------------------------------ one operation each, on views

  /** The connection `id` is the one whose handler is next. */
  ghost predicate Closes(s: State, id: nat) {
    Inv(s) && Enabled(s, Close) && s.owner[s.stage.active[0]].id == id
  }

  function Closed(v: View, c: TcpConnection): View {
    v.(connections := v.connections - {c.name},
       interests := v.interests[c.channel.fd := OFF],
       pending := v.pending + [DestroyFunctor(c)])
  }

  function Opened(v: View, c: TcpConnection, pending: seq<Functor>): View {
    View(v.next + 1, v.connections[c.name := c], v.channels[c.channel.fd := c.channel],
         v.interests[c.channel.fd := ON], pending)
  }

  function Dropped(v: View, c: TcpConnection, pending: seq<Functor>): View {
    v.(channels := v.channels - {c.channel.fd}, interests := v.interests - {c.channel.fd}, pending := pending)
  }

  lemma CloseMatches(v: View, conns: map<nat, TcpConnection>, s: State, id: nat) returns (s': State)
    requires Matches(v, conns, s) && Closes(s, id)
    requires id in conns && id in s.objects && conns[id].channel.fd == s.objects[id].fd
    requires conns[id].name == ConnectionName(s.name, id)
    ensures Step(s, Close) == Next(s') && s' == Successor(s, Close, 0) && s'.name == s.name
    ensures Matches(Closed(v, conns[id]), conns, s')
    ensures s'.objects == s.objects[id := Conn(conns[id].channel.fd, CLOSING)]
  {
    hide Inv, HandleClose;
    CloseEffect(s);
    s' := Step(s, Close).state;
    assert s'.pending + seq(0, i => UserWork) == s'.pending;
  }

  /** The object of the connection that is about to close. */
  lemma ClosingObject(server: TcpServer, conns: map<nat, TcpConnection>, s: State, id: nat)
    requires Represents(server, conns, s) && Closes(s, id)
    ensures id in conns && id in s.objects && conns[id].channel.fd == s.objects[id].fd && conns[id].Now() == OPENED
    ensures conns[id].name == ConnectionName(s.name, id)
    ensures server.loop.poller.Valid() && server.serverName == s.name
    ensures Numbered(s.name, conns) && Lives(conns, s.objects) && Matches(ViewOf(server), conns, s)
    ensures server.loop.poller.Holds(conns[id].channel) && conns[id].name in server.connections
  {
    hide Inv, HandleClose;
    CloseEffect(s);
  }

  /** User functors queued after a step. */
  function WithUsers(s: State, n: nat): State {
    s.(pending := s.pending + seq(n, i => UserWork))
  }

  /** The event, and then n user functors queued. */
  function Successor(s: State, e: Event, n: nat): State
    requires Enabled(s, e)
  {
    if Step(s, e).Next? then WithUsers(Step(s, e).state, n) else s
  }

  lemma AcceptMatches(v: View, conns: map<nat, TcpConnection>, s: State, c: TcpConnection, pending: seq<Functor>)
    returns (s': State)
    requires Matches(v, conns, s) && Enabled(s, Accept(c.channel.fd)) && s.next + 1 !in conns
    requires Adds(v.pending, pending) && c.name == ConnectionName(s.name, s.next + 1)
    ensures s' == Successor(s, Accept(c.channel.fd), |pending| - |v.pending|)
    ensures Step(s, Accept(c.channel.fd)).Next? && s'.name == s.name
    ensures Matches(Opened(v, c, pending), conns[s.next + 1 := c], s')
    ensures s'.objects == s.objects[s.next + 1 := Conn(c.channel.fd, OPENED)]
  {
    assert In in READ_EVENT.bits;
    s' := WithUsers(Step(s, Accept(c.channel.fd)).state, |pending| - |v.pending|);
  }

  lemma DestroyMatches(v: View, conns: map<nat, TcpConnection>, s: State, id: nat, pending: seq<Functor>)
    returns (s': State)
    requires Matches(v, conns, s) && Destroys(s, id)
    requires id in conns && id in s.objects && conns[id].channel.fd == s.objects[id].fd
    requires Adds(v.pending, pending)
    ensures s' == Successor(s, RunDestroy, |pending| - |v.pending|)
    ensures Step(s, RunDestroy).Next? && s'.name == s.name
    ensures Matches(Dropped(v, conns[id], pending), conns, s')
    ensures s'.objects == s.objects[id := Conn(conns[id].channel.fd, GONE)]
  {
    hide Inv, ConnectDestroyed;
    DestroyEffect(s, id);
    s' := WithUsers(Step(s, RunDestroy).state, |pending| - |v.pending|);
  }

  // ------------------------------------------------------------------ one operation each, on objects

  lemma Representing(server: TcpServer, conns: map<nat, TcpConnection>, s: State)
    requires server.loop.poller.Valid() && server.serverName == s.name
    requires Numbered(s.name, conns) && Lives(conns, s.objects) && Matches(ViewOf(server), conns, s)
    ensures Represents(server, conns, s)
  {
  }

  method CloseOne(server: TcpServer, ghost conns: map<nat, TcpConnection>, ghost objects: map<nat, Conn>, ghost id: nat,
                  c: TcpConnection)
    requires Numbered(server.serverName, conns) && Lives(conns, objects) && id in conns && c == conns[id]
    requires server.loop.poller.Valid() && server.loop.poller.Holds(c.channel)
    requires c.Now() == OPENED && c.name in server.connections
    modifies c`closes, c`messages, c.channel, server`connections, server.loop, server.loop.poller
    ensures server.loop.poller.Valid()
    ensures Lives(conns, objects[id := Conn(c.channel.fd, CLOSING)])
    ensures ViewOf(server) == Closed(old(ViewOf(server)), c)
    ensures server.loop.poller.channels == old(server.loop.poller.channels)
  {
    hide Bijection, Table, Alive;
    c.HandleRead(server, EndOfFile);
    IsAlive(c, Conn(c.channel.fd, CLOSING));
  }

  /** A connection's handler reads end of file: handle_close may be called, and does what Close does. */
  method ReadEndOfFile(server: TcpServer, ghost conns: map<nat, TcpConnection>, ghost s: State, ghost id: nat,
                       c: TcpConnection)
    requires Represents(server, conns, s) && Closes(s, id) && id in conns && c == conns[id]
    modifies c`closes, c`messages, c.channel, server`connections, server.loop, server.loop.poller
    ensures server.loop.poller.channels == old(server.loop.poller.channels)
    ensures Step(s, Close).Next? && Represents(server, conns, Successor(s, Close, 0))
  {
    hide Bijection, Table, Represents, Closes, Step, Successor, Matches, Numbered, Lives, ViewOf, Closed;
    ClosingObject(server, conns, s, id);
    ghost var v := ViewOf(server);
    CloseOne(server, conns, s.objects, id, c);
    ghost var s' := CloseMatches(v, conns, s, id);
    Representing(server, conns, s');
  }

  method AcceptOne(server: TcpServer, ghost conns: map<nat, TcpConnection>, ghost objects: map<nat, Conn>, fd: int)
    returns (c: TcpConnection, n: nat, ghost pending: seq<Functor>)
    requires Numbered(server.serverName, conns) && Lives(conns, objects) && server.nextConnectId + 1 !in conns
    requires server.loop.poller.Valid() && fd >= 0 && fd !in server.loop.poller.channels
    modifies server`connections, server`nextConnectId, server.loop, server.loop.poller
    ensures server.loop.poller.Valid() && fresh(c) && fresh(c.channel)
    ensures Numbered(server.serverName, conns[server.nextConnectId := c])
    ensures Lives(conns[server.nextConnectId := c], objects[server.nextConnectId := Conn(fd, OPENED)])
    ensures c.name == ConnectionName(server.serverName, server.nextConnectId) && c.channel.fd == fd
    ensures server.nextConnectId == old(server.nextConnectId) + 1
    ensures server.loop.poller.channels == old(server.loop.poller.channels)[fd := c.channel]
    ensures ViewOf(server) == Opened(old(ViewOf(server)), c, pending)
    ensures Adds(old(ViewOf(server)).pending, pending) && n == |pending| - |old(ViewOf(server)).pending|
  {
    hide Bijection, Table, Alive;
    var before := |server.loop.pending|;
    server.acceptor.HandleRead(server, fd);
    n, pending := |server.loop.pending| - before, server.loop.pending;
    c := server.connections[ConnectionName(server.serverName, server.nextConnectId)];
    IsAlive(c, Conn(fd, OPENED));
  }

  method DestroyOne(server: TcpServer, ghost conns: map<nat, TcpConnection>, ghost objects: map<nat, Conn>,
                    ghost id: nat, c: TcpConnection) returns (n: nat, ghost pending: seq<Functor>)
    requires Numbered(server.serverName, conns) && Lives(conns, objects) && id in conns && c == conns[id]
    requires server.loop.poller.Valid() && server.loop.poller.Holds(c.channel) && c.Now() == CLOSING
    modifies c, c.channel, server.loop, server.loop.poller, server.loop.poller.channels.Values`index
    ensures server.loop.poller.Valid()
    ensures Lives(conns, objects[id := Conn(c.channel.fd, GONE)])
    ensures server.loop.poller.channels == old(server.loop.poller.channels) - {c.channel.fd}
    ensures ViewOf(server) == Dropped(old(ViewOf(server)), c, pending)
    ensures Adds(old(ViewOf(server)).pending, pending) && n == |pending| - |old(ViewOf(server)).pending|
  {
    hide Bijection, Table, Alive;
    var before := |server.loop.pending|;
    c.ConnectDestroyed(server.loop);
    n, pending := |server.loop.pending| - before, server.loop.pending;
    IsAlive(c, Conn(c.channel.fd, GONE));
  }

  lemma AcceptReady(server: TcpServer, conns: map<nat, TcpConnection>, s: State, fd: int)
    requires Represents(server, conns, s) && Inv(s) && Enabled(s, Accept(fd))
    ensures server.loop.poller.Valid() && server.serverName == s.name
    ensures Numbered(s.name, conns) && Lives(conns, s.objects) && Matches(ViewOf(server), conns, s)
    ensures s.next + 1 !in conns && fd !in server.loop.poller.channels && server.nextConnectId == s.next && fd >= 0
  {
    FreshNumber(s);
  }

  method AcceptStep(server: TcpServer, ghost conns: map<nat, TcpConnection>, ghost s: State, fd: int)
    returns (c: TcpConnection, n: nat, ghost s': State)
    requires server.serverName == s.name && Numbered(s.name, conns) && Lives(conns, s.objects)
    requires s.next + 1 !in conns && server.nextConnectId == s.next
    requires server.loop.poller.Valid() && fd >= 0 && fd !in server.loop.poller.channels
    requires Matches(ViewOf(server), conns, s) && Enabled(s, Accept(fd))
    modifies server`connections, server`nextConnectId, server.loop, server.loop.poller
    ensures fresh(c) && fresh(c.channel) && c.channel.fd == fd
    ensures server.loop.poller.channels == old(server.loop.poller.channels)[fd := c.channel]
    ensures Step(s, Accept(fd)).Next? && s' == Successor(s, Accept(fd), n) && s'.name == s.name
    ensures server.loop.poller.Valid() && Numbered(s.name, conns[s.next + 1 := c])
    ensures Lives(conns[s.next + 1 := c], s'.objects) && Matches(ViewOf(server), conns[s.next + 1 := c], s')
  {
    hide Bijection, Table, Enabled, Step, Successor, Matches, Numbered, Lives, ViewOf, Opened;
    ghost var v := ViewOf(server);
    ghost var pending;
    c, n, pending := AcceptOne(server, conns, s.objects, fd);
    s' := AcceptMatches(v, conns, s, c, pending);
  }

  /** accept returns a new descriptor: it may be registered, and becomes what Accept makes of it. */
  method AcceptConnection(server: TcpServer, ghost conns: map<nat, TcpConnection>, ghost s: State, fd: int)
    returns (c: TcpConnection, n: nat)
    requires Represents(server, conns, s) && Inv(s) && Enabled(s, Accept(fd))
    modifies server`connections, server`nextConnectId, server.loop, server.loop.poller
    ensures fresh(c) && fresh(c.channel) && c.channel.fd == fd
    ensures server.loop.poller.channels == old(server.loop.poller.channels)[fd := c.channel]
    ensures Step(s, Accept(fd)).Next?
    ensures Represents(server, conns[s.next + 1 := c], Successor(s, Accept(fd), n))
  {
    AcceptReady(server, conns, s, fd);
    hide Bijection, Table, Represents, Inv, Enabled, Step, Successor, Matches, Numbered, Lives, ViewOf;
    ghost var s';
    c, n, s' := AcceptStep(server, conns, s, fd);
    Representing(server, conns[s.next + 1 := c], s');
  }

  lemma DestroyReady(server: TcpServer, conns: map<nat, TcpConnection>, s: State, id: nat)
    requires Represents(server, conns, s) && Destroys(s, id)
    ensures id in conns && id in s.objects && conns[id].channel.fd == s.objects[id].fd && conns[id].Now() == CLOSING
    ensures server.loop.poller.Valid() && server.serverName == s.name
    ensures Numbered(s.name, conns) && Lives(conns, s.objects) && Matches(ViewOf(server), conns, s)
    ensures server.loop.poller.Holds(conns[id].channel)
  {
    hide Inv, ConnectDestroyed;
    DestroyEffect(s, id);
  }

  method DestroyStep(server: TcpServer, ghost conns: map<nat, TcpConnection>, ghost s: State, ghost id: nat,
                     c: TcpConnection) returns (n: nat, ghost s': State)
    requires server.serverName == s.name && Numbered(s.name, conns) && Lives(conns, s.objects)
    requires id in conns && c == conns[id] && id in s.objects && c.channel.fd == s.objects[id].fd && c.Now() == CLOSING
    requires server.loop.poller.Valid() && server.loop.poller.Holds(c.channel)
    requires Matches(ViewOf(server), conns, s) && Destroys(s, id)
    modifies c, c.channel, server.loop, server.loop.poller, server.loop.poller.channels.Values`index
    ensures server.loop.poller.channels == old(server.loop.poller.channels) - {c.channel.fd}
    ensures Step(s, RunDestroy).Next? && s' == Successor(s, RunDestroy, n) && s'.name == s.name
    ensures server.loop.poller.Valid() && Lives(conns, s'.objects) && Matches(ViewOf(server), conns, s')
  {
    hide Bijection, Table, Destroys, Step, Successor, Matches, Numbered, Lives, ViewOf, Dropped;
    ghost var v := ViewOf(server);
    ghost var pending;
    n, pending := DestroyOne(server, conns, s.objects, id, c);
    s' := DestroyMatches(v, conns, s, id, pending);
  }

  /** The functor that remove_connection queued: connect_destoryed may be called, and does what
      RunDestroy does. */
  method RunDestroyFunctor(server: TcpServer, ghost conns: map<nat, TcpConnection>, ghost s: State, ghost id: nat,
                           c: TcpConnection) returns (n: nat)
    requires Represents(server, conns, s) && Destroys(s, id) && id in conns && c == conns[id]
    modifies c, c.channel, server.loop, server.loop.poller, server.loop.poller.channels.Values`index
    ensures server.loop.poller.channels == old(server.loop.poller.channels) - {c.channel.fd}
    ensures Step(s, RunDestroy).Next?
    ensures Represents(server, conns, Successor(s, RunDestroy, n))
  {
    DestroyReady(server, conns, s, id);
    hide Bijection, Table, Represents, Destroys, Step, Successor, Matches, Numbered, Lives, ViewOf;
    ghost var s';
    n, s' := DestroyStep(server, conns, s, id, c);
    Representing(server, conns, s');
  }

  lemma Represented(server: TcpServer, conns: map<nat, TcpConnection>, s: State)
    requires Represents(server, conns, s)
    ensures server.loop.poller.Valid() && server.serverName == s.name
    ensures Numbered(s.name, conns) && Lives(conns, s.objects) && Matches(ViewOf(server), conns, s)
  {
  }

  lemma DrainMatches(v: View, conns: map<nat, TcpConnection>, s: State)
    requires Matches(v, conns, s) && Enabled(s, BeginDrain)
    ensures Step(s, BeginDrain).Next? && Same(v.pending, conns, s.pending)
    ensures var s' := Successor(s, BeginDrain, 0);
            s'.name == s.name && s'.objects == s.objects && Matches(v.(pending := []), conns, s')
  {
  }

  lemma InterestsMatch(v: View, conns: map<nat, TcpConnection>, s: State)
    requires Matches(v, conns, s)
    ensures v.interests == s.interests
  {
  }

  lemma QueueMatches(v: View, conns: map<nat, TcpConnection>, s: State, f: nat)
    requires Matches(v, conns, s)
    ensures Step(s, Queue).Next?
    ensures var s' := Successor(s, Queue, 0);
            && s'.name == s.name && s'.objects == s.objects
            && Matches(v.(pending := v.pending + [UserFunctor(f)]), conns, s')
  {
  }

  lemma SkipMatches(v: View, conns: map<nat, TcpConnection>, s: State, pending: seq<Functor>) returns (s': State)
    requires Matches(v, conns, s) && Enabled(s, Skip) && Adds(v.pending, pending)
    ensures s' == Successor(s, Skip, |pending| - |v.pending|) && Step(s, Skip).Next?
    ensures s'.name == s.name && s'.objects == s.objects && Matches(v.(pending := pending), conns, s')
  {
    s' := WithUsers(Step(s, Skip).state, |pending| - |v.pending|);
  }

  method ReadOne(server: TcpServer, ghost conns: map<nat, TcpConnection>, ghost objects: map<nat, Conn>,
                 ghost id: nat, c: TcpConnection, outcome: ReadOutcome) returns (n: nat, ghost pending: seq<Functor>)
    requires Lives(conns, objects) && id in conns && c == conns[id] && outcome != EndOfFile
    requires c.Now() == objects[id].life && c.channel.fd == objects[id].fd
    requires Numbered(server.serverName, conns)
    requires server.loop.poller.Valid() && server.loop.poller.Holds(c.channel) && c.Now() == OPENED
    modifies c`closes, c`messages, c.channel, server`connections, server.loop, server.loop.poller
    ensures server.loop.poller.Valid() && Lives(conns, objects)
    ensures server.loop.poller.channels == old(server.loop.poller.channels)
    ensures ViewOf(server) == old(ViewOf(server)).(pending := pending)
    ensures Adds(old(ViewOf(server)).pending, pending) && n == |pending| - |old(ViewOf(server)).pending|
  {
    hide Bijection, Table, Alive;
    var before := |server.loop.pending|;
    c.HandleRead(server, outcome);
    IsAlive(c, objects[id]);
    n, pending := |server.loop.pending| - before, server.loop.pending;
  }

  /** The connection, if it is one, whose channel is the next to be handled. */
  function NextReader(s: State): Option<nat> {
    if s.stage.Dispatch? && s.stage.active != [] && s.stage.active[0] in s.owner
       && s.owner[s.stage.active[0]].Connection?
    then Some(s.owner[s.stage.active[0]].id) else None
  }

  predicate Reads(s: State, id: nat) {
    NextReader(s) == Some(id)
  }

  lemma ReadingObject(server: TcpServer, conns: map<nat, TcpConnection>, s: State, id: nat)
    requires Represents(server, conns, s) && Inv(s) && Reads(s, id)
    ensures id in conns && conns[id].Now() == OPENED && server.loop.poller.Holds(conns[id].channel)
    ensures conns[id].channel.fd == s.stage.active[0]
    ensures id in s.objects && s.objects[id] == Conn(s.stage.active[0], OPENED)
    ensures server.loop.poller.channels[s.stage.active[0]] == conns[id].channel
  {
    ActiveIsOpen(s, s.stage.active[0]);
  }

  method ReadStep(server: TcpServer, ghost conns: map<nat, TcpConnection>, ghost s: State, ghost id: nat,
                  c: TcpConnection, outcome: ReadOutcome) returns (n: nat, ghost s': State)
    requires server.serverName == s.name && Numbered(s.name, conns) && Lives(conns, s.objects)
    requires id in conns && c == conns[id] && c.Now() == OPENED && outcome != EndOfFile
    requires id in s.objects && s.objects[id] == Conn(c.channel.fd, OPENED)
    requires server.loop.poller.Valid() && server.loop.poller.Holds(c.channel)
    requires Matches(ViewOf(server), conns, s) && Enabled(s, Skip)
    modifies c`closes, c`messages, c.channel, server`connections, server.loop, server.loop.poller
    ensures server.loop.poller.channels == old(server.loop.poller.channels)
    ensures Step(s, Skip).Next? && s' == Successor(s, Skip, n) && s'.name == s.name
    ensures server.loop.poller.Valid() && Lives(conns, s'.objects) && Matches(ViewOf(server), conns, s')
  {
    hide Bijection, Table, Enabled, Step, Successor, Matches, Numbered, Lives, ViewOf;
    ghost var v := ViewOf(server);
    ghost var pending;
    n, pending := ReadOne(server, conns, s.objects, id, c, outcome);
    s' := SkipMatches(v, conns, s, pending);
  }

  /** A connection's handler reads data or an error: whatever the user does with it, the tables stay. */
  method ReadData(server: TcpServer, ghost conns: map<nat, TcpConnection>, ghost s: State, ghost id: nat,
                  c: TcpConnection, outcome: ReadOutcome) returns (n: nat)
    requires Represents(server, conns, s) && Inv(s) && Enabled(s, Skip) && Reads(s, id) && id in conns && c == conns[id]
    requires outcome != EndOfFile
    modifies c`closes, c`messages, c.channel, server`connections, server.loop, server.loop.poller
    ensures Step(s, Skip).Next? && Represents(server, conns, Successor(s, Skip, n))
    ensures server.loop.poller.channels == old(server.loop.poller.channels)
  {
    ReadingObject(server, conns, s, id);
    Represented(server, conns, s);
    hide Bijection, Table, Represents, Inv, Reads, Enabled, Step, Successor, Matches, Numbered, Lives, ViewOf;
    ghost var s';
    n, s' := ReadStep(server, conns, s, id, c, outcome);
    Representing(server, conns, s');
  }

  /** remove_connection's functors and the others are swapped out. */
  method SwapOut(server: TcpServer, ghost conns: map<nat, TcpConnection>, ghost s: State)
    returns (batch: seq<Functor>)
    requires Represents(server, conns, s) && Enabled(s, BeginDrain)
    modifies server.loop
    ensures Step(s, BeginDrain).Next? && Represents(server, conns, Successor(s, BeginDrain, 0))
    ensures Same(batch, conns, s.pending)
  {
    Represented(server, conns, s);
    hide Bijection, Table, Represents, Numbered, Matches, Same, Step, Successor;
    DrainMatches(ViewOf(server), conns, s);
    batch := server.loop.pending;
    server.loop.pending := [];
    Representing(server, conns, Successor(s, BeginDrain, 0));
  }

  /** A functor is queued by a callback or by another thread. */
  method Enqueue(server: TcpServer, ghost conns: map<nat, TcpConnection>, ghost s: State, f: nat)
    requires Represents(server, conns, s)
    modifies server.loop
    ensures Step(s, Queue).Next? && Represents(server, conns, Successor(s, Queue, 0))
  {
    Represented(server, conns, s);
    hide Bijection, Table, Represents, Numbered, Matches, Step, Successor;
    QueueMatches(ViewOf(server), conns, s, f);
    server.loop.QueueInLoop(UserFunctor(f));
    Representing(server, conns, Successor(s, Queue, 0));
  }

  /** Events that change nothing the tables hold. */
  lemma QuietStep(server: TcpServer, conns: map<nat, TcpConnection>, s: State, e: Event)
    requires Represents(server, conns, s) && Enabled(s, e) && (e.Poll? || e.Skip? || e.RunUser? || e.EndDrain?)
    ensures Step(s, e).Next? && Represents(server, conns, Successor(s, e, 0))
  {
    QuietSuccessor(s, e);
    hide Bijection, Table, Successor, Enabled;
  }

  lemma QuietSuccessor(s: State, e: Event)
    requires Enabled(s, e) && (e.Poll? || e.Skip? || e.RunUser? || e.EndDrain?)
    ensures Step(s, e).Next? && Successor(s, e, 0) == s.(stage := Successor(s, e, 0).stage)
  {
  }

  // ------------------------------------------------------------------ dispatch

  function Descriptors(channels: seq<Channel>): seq<int> {
    seq(|channels|, i requires 0 <= i < |channels| => channels[i].fd)
  }

  /** The channels still to be handled in this pass are the machine's, and registered. */
  ghost predicate Handling(channels: map<int, Channel>, active: seq<Channel>, s: State) {
    s.stage.Dispatch? ==>
      && s.stage.active == Descriptors(active)
      && forall c <- active :: c.fd in channels && channels[c.fd] == c
  }

  /** The event takes the next active channel. */
  predicate Handles(e: Event) {
    e.Skip? || e.Accept? || e.Close?
  }

  lemma HandlingAfter(channels: map<int, Channel>, channels': map<int, Channel>, active: seq<Channel>,
                      active': seq<Channel>, s: State, e: Event, n: nat)
    requires Handling(channels, active, s) && Enabled(s, e) && !e.Poll? && Step(s, e).Next?
    requires e.RunDestroy? || Keeps(channels, channels')
    requires if Handles(e) then active != [] && active' == active[1..] else active' == active
    ensures Handling(channels', active', Successor(s, e, n))
  {
    if Handles(e) {
      assert Descriptors(active)[1..] == Descriptors(active[1..]);
    }
  }

  /** What poll reports, as the machine's event. */
  lemma ReportedIsEnabled(p: Poller, active: seq<Channel>, s: State)
    requires s.stage.Check? && Distinct(active) && p.Valid() && p.Interests() == s.interests
    requires forall c <- active :: p.Holds(c) && p.Interests()[c.fd].watched
    ensures Enabled(s, Poll(Descriptors(active)))
    ensures Handling(p.channels, active, Successor(s, Poll(Descriptors(active)), 0))
  {
    p.InterestKeys();
    hide Bijection, Table;
    var fds := Descriptors(active);
    forall i, j | 0 <= i < j < |fds|
      ensures fds[i] != fds[j]
    {
      assert p.Holds(active[i]) && p.Holds(active[j]);
    }
    forall fd | fd in fds
      ensures fd in s.interests && s.interests[fd].watched
    {
      var i :| 0 <= i < |fds| && fds[i] == fd;
      assert active[i] in active;
    }
  }

  /** Poller::poll changes nothing that is represented. */
  method PollKeeps(server: TcpServer, ghost conns: map<nat, TcpConnection>, ghost s: State, ret: int,
                   revents: seq<Mask>) returns (active: seq<Channel>)
    requires Represents(server, conns, s) && server.loop.poller.PollReturns(ret, revents)
    modifies server.loop.poller`pollfds, server.loop.poller.channels.Values`revents
    ensures Represents(server, conns, s) && Distinct(active)
    ensures server.loop.poller.Valid() && server.loop.poller.Interests() == s.interests
    ensures forall c <- active ::
              server.loop.poller.Holds(c) && server.loop.poller.Interests()[c.fd].watched && Positive(c.revents)
  {
    Represented(server, conns, s);
    hide Bijection, Table, Represents, Numbered, Matches;
    ghost var v := ViewOf(server);
    active := server.loop.poller.Poll(ret, revents);
    assert ViewOf(server) == v;
    InterestsMatch(v, conns, s);
    Representing(server, conns, s);
  }

  /** poll returns: the active channels are what the machine's Poll says, whatever is reported. */
  method PollOnce(server: TcpServer, ghost conns: map<nat, TcpConnection>, ghost s: State, ret: int, revents: seq<Mask>)
    returns (active: seq<Channel>)
    requires Represents(server, conns, s) && s.stage.Check? && server.loop.poller.PollReturns(ret, revents)
    modifies server.loop.poller`pollfds, server.loop.poller.channels.Values`revents
    ensures Enabled(s, Poll(Descriptors(active))) && Step(s, Poll(Descriptors(active))).Next?
    ensures Handling(server.loop.poller.channels, active, Successor(s, Poll(Descriptors(active)), 0))
    ensures Represents(server, conns, Successor(s, Poll(Descriptors(active)), 0))
  {
    hide Bijection, Table, Represents, Step, Successor, Handling, Descriptors, Enabled;
    active := PollKeeps(server, conns, s, ret, revents);
    ReportedIsEnabled(server.loop.poller, active, s);
    QuietStep(server, conns, s, Poll(Descriptors(active)));
  }

  // ------------------------------------------------------------------ runs

  lemma {:induction false} QueuesAreRun(s: State, n: nat)
    ensures Run(s, seq(n, i => Queue)) == Reached(WithUsers(s, n))
    decreases n
  {
    var es := seq(n, i => Queue);
    if n == 0 {
      assert s.pending + seq(0, i => UserWork) == s.pending;
    } else {
      assert es[1..] == seq(n - 1, i => Queue);
      var t := Step(s, Queue).state;
      QueuesAreRun(t, n - 1);
      assert t.pending + seq(n - 1, i => UserWork) == s.pending + seq(n, i => UserWork);
    }
  }

  /** A run goes on with an event and the functors queued after it. */
  lemma SuccessorIsRun(s0: State, trace: seq<Event>, s: State, e: Event, n: nat) returns (longer: seq<Event>)
    requires Initial(s0) && Run(s0, trace) == Reached(s) && Enabled(s, e)
    ensures Run(s0, longer) == Reached(Successor(s, e, n)) && Inv(Successor(s, e, n))
  {
    InitialInv(s0);
    NoAssertFails(s0, trace);
    StepKeepsInv(s, e);
    var es := [e] + seq(n, i => Queue);
    assert es[1..] == seq(n, i => Queue);
    QueuesAreRun(Step(s, e).state, n);
    longer := trace + es;
    RunConcat(s0, trace, es);
    NoAssertFails(s0, longer);
  }

  /** The functors being drained are the ones the machine is draining. */
  ghost predicate Draining(batch: seq<Functor>, conns: map<nat, TcpConnection>, s: State) {
    s.stage.Drain? ==> Same(batch, conns, s.stage.batch)
  }

  /** What an event does to the functors being drained. */
  ghost predicate Advanced(batch: seq<Functor>, batch': seq<Functor>, conns: map<nat, TcpConnection>, s: State,
                           e: Event) {
    if e.RunUser? || e.RunDestroy? then batch != [] && batch' == batch[1..]
    else if e.BeginDrain? then Same(batch', conns, s.pending)
    else batch' == batch
  }

  lemma DrainingAfter(batch: seq<Functor>, batch': seq<Functor>, conns: map<nat, TcpConnection>,
                      conns': map<nat, TcpConnection>, s: State, e: Event, n: nat)
    requires Draining(batch, conns, s) && Enabled(s, e) && Step(s, e).Next?
    requires Advanced(batch, batch', conns, s, e) && (e.Accept? || conns' == conns)
    ensures Draining(batch', conns', Successor(s, e, n))
  {
  }

  /** Every connection object and every registered channel is among these. */
  ghost predicate Owns(own: set<object>, channels: map<int, Channel>, conns: map<nat, TcpConnection>) {
    && (forall id :: id in conns ==> conns[id] in own && conns[id].channel in own)
    && forall c :: c in channels.Values ==> c in own
  }

  lemma OwnsAccepted(own: set<object>, channels: map<int, Channel>, conns: map<nat, TcpConnection>, id: nat,
                     c: TcpConnection)
    requires Owns(own, channels, conns)
    ensures Owns(own + {c, c.channel}, channels[c.channel.fd := c.channel], conns[id := c])
  {
  }

  lemma OwnsConnection(own: set<object>, channels: map<int, Channel>, conns: map<nat, TcpConnection>, id: nat)
    requires Owns(own, channels, conns) && id in conns
    ensures conns[id] in own && conns[id].channel in own
  {
  }

  lemma AddingKeeps(channels: map<int, Channel>, fd: int, c: Channel)
    requires fd !in channels
    ensures Keeps(channels, channels[fd := c])
  {
  }

  /** Its handler is that of the connection object whose channel is handled. */
  lemma ReadsNext(server: TcpServer, conns: map<nat, TcpConnection>, s: State, active: seq<Channel>, id: nat)
    requires Represents(server, conns, s) && Inv(s) && Reads(s, id)
    requires Handling(server.loop.poller.channels, active, s)
    ensures id in conns && active != [] && conns[id].channel == active[0]
    ensures Enabled(s, Close) && Closes(s, id) && Enabled(s, Skip)
  {
    hide Bijection, Table, Represents, Inv;
    ReadingObject(server, conns, s, id);
    assert active[0] in active;
  }

  lemma DestroysNext(batch: seq<Functor>, conns: map<nat, TcpConnection>, s: State) returns (id: nat)
    requires Draining(batch, conns, s) && Inv(s) && Enabled(s, RunDestroy)
    ensures Destroys(s, id) && id in conns && batch != [] && batch[0] == DestroyFunctor(conns[id])
  {
    id := s.stage.batch[0].id;
  }

  lemma DrainedUser(batch: seq<Functor>, conns: map<nat, TcpConnection>, s: State)
    requires Draining(batch, conns, s) && Enabled(s, RunUser)
    ensures batch != [] && batch[0].UserFunctor?
  {
  }

  /** The handler of the next active channel: of a connection, of the acceptor, or of the system. */
  method HandleNext(server: TcpServer, conns: map<nat, TcpConnection>, s: State, ghost active: seq<Channel>, e: Event,
                    ghost own: set<object>)
    returns (conns': map<nat, TcpConnection>, n: nat, ghost own': set<object>)
    requires Represents(server, conns, s) && Inv(s) && Enabled(s, e) && Handles(e)
    requires Handling(server.loop.poller.channels, active, s) && Owns(own, server.loop.poller.channels, conns)
    modifies server, server.loop, server.loop.poller, own
    ensures fresh(own' - own) && Owns(own', server.loop.poller.channels, conns')
    ensures Step(s, e).Next? && Represents(server, conns', Successor(s, e, n))
    ensures Keeps(old(server.loop.poller.channels), server.loop.poller.channels) && (e.Accept? || conns' == conns)
  {
    hide Represents, Inv, Enabled, Step, Successor, Closes, Bijection, Table, Handling, Owns;
    conns', n, own' := conns, 0, own;
    if e.Accept? {
      var c: TcpConnection;
      AcceptReady(server, conns, s, e.fd);
      OwnsChannels(own, server.loop.poller.channels, conns);
      c, n := AcceptConnection(server, conns, s, e.fd);
      conns', own' := conns[s.next + 1 := c], own + {c, c.channel};
      OwnsAccepted(own, old(server.loop.poller.channels), conns, s.next + 1, c);
      AddingKeeps(old(server.loop.poller.channels), e.fd, c.channel);
    } else {
      n := HandleReader(server, conns, s, active, e, own);
    }
  }

  method HandleReader(server: TcpServer, conns: map<nat, TcpConnection>, s: State, ghost active: seq<Channel>, e: Event,
                      ghost own: set<object>) returns (n: nat)
    requires Represents(server, conns, s) && Inv(s) && Enabled(s, e) && (e.Skip? || e.Close?)
    requires Handling(server.loop.poller.channels, active, s) && Owns(own, server.loop.poller.channels, conns)
    modifies server, server.loop, server.loop.poller, own
    ensures server.loop.poller.channels == old(server.loop.poller.channels)
    ensures Step(s, e).Next? && Represents(server, conns, Successor(s, e, n))
  {
    hide Represents, Inv, Enabled, Step, Successor, Closes, Bijection, Table, Handling, Owns;
    n := 0;
    var reader := NextReader(s);
    if e.Close? {
      CloseReads(s);
    }
    if reader.Some? {
      var c := ReaderObject(server, conns, s, active, reader.value, own);
      if e.Close? {
        ReadEndOfFile(server, conns, s, reader.value, c);
      } else {
        var failed: bool := *;
        n := ReadData(server, conns, s, reader.value, c, if failed then Error else Data);
      }
    } else {
      QuietStep(server, conns, s, e);
    }
  }

  /** The connection object that the read callback of the channel to be handled is bound to. */
  method ReaderObject(server: TcpServer, conns: map<nat, TcpConnection>, s: State, ghost active: seq<Channel>, id: nat,
                      ghost own: set<object>) returns (c: TcpConnection)
    requires Represents(server, conns, s) && Inv(s) && Reads(s, id)
    requires Handling(server.loop.poller.channels, active, s) && Owns(own, server.loop.poller.channels, conns)
    ensures active != [] && c.channel == active[0] && id in conns && c == conns[id] && c in own && c.channel in own
    ensures Closes(s, id)
  {
    hide Represents, Inv, Enabled, Closes, Bijection, Table, Handling;
    ReadsNext(server, conns, s, active, id);
    c := conns[id];
  }

  lemma OwnsChannels(own: set<object>, channels: map<int, Channel>, conns: map<nat, TcpConnection>)
    requires Owns(own, channels, conns)
    ensures forall c <- channels.Values :: c in own
  {
  }

  lemma CloseReads(s: State)
    requires Enabled(s, Close)
    ensures NextReader(s).Some?
  {
  }

  /** No registered channel has been removed or replaced. */
  ghost predicate Keeps(before: map<int, Channel>, after: map<int, Channel>) {
    forall fd <- before :: fd in after && after[fd] == before[fd]
  }

  /** One event other than poll and the handlers, on the objects. */
  method Perform(server: TcpServer, ghost conns: map<nat, TcpConnection>, ghost s: State, batch: seq<Functor>, e: Event,
                 f: nat, ghost own: set<object>)
    returns (batch': seq<Functor>, n: nat)
    requires Represents(server, conns, s) && Inv(s) && Enabled(s, e) && !e.Poll? && !Handles(e)
    requires Draining(batch, conns, s) && Owns(own, server.loop.poller.channels, conns)
    modifies server, server.loop, server.loop.poller, own
    ensures Owns(own, server.loop.poller.channels, conns)
    ensures Step(s, e).Next? && Represents(server, conns, Successor(s, e, n))
    ensures Advanced(batch, batch', conns, s, e)
    ensures e.RunDestroy? || Keeps(old(server.loop.poller.channels), server.loop.poller.channels)
  {
    hide Represents, Enabled, Inv, Step, Successor, Draining, Destroys, Bijection, Table, Same;
    batch', n := batch, 0;
    match e {
      case Queue =>
        Enqueue(server, conns, s, f);
      case BeginDrain =>
        batch' := SwapOut(server, conns, s);
      case RunDestroy =>
        ghost var id := DestroysNext(batch, conns, s);
        OwnsConnection(own, server.loop.poller.channels, conns, id);
        n := RunDestroyFunctor(server, conns, s, id, batch[0].connection);
        batch' := batch[1..];
      case RunUser =>
        DrainedUser(batch, conns, s);
        QuietStep(server, conns, s, e);
        batch' := batch[1..];
      case EndDrain =>
        QuietStep(server, conns, s, e);
    }
  }

  /** The descriptors of the connections in `connections_`. */
  ghost function OpenDescriptors(server: TcpServer): set<int>
    reads *
  {
    set n <- server.connections.Keys :: server.connections[n].channel.fd
  }

  lemma SameDescriptors(server: TcpServer, conns: map<nat, TcpConnection>, s: State)
    requires Represents(server, conns, s)
    ensures OpenDescriptors(server) == OpenFds(s)
  {
    hide Bijection, Table;
    forall n | n in s.connections
      ensures server.connections[n].channel.fd == s.objects[s.connections[n]].fd
    {
    }
    forall fd ensures fd in OpenDescriptors(server) <==> fd in OpenFds(s) {
      if fd in OpenFds(s) {
        var n :| n in s.connections && s.objects[s.connections[n]].fd == fd;
        assert n in server.connections.Keys;
      }
      if fd in OpenDescriptors(server) {
        var n :| n in server.connections.Keys && server.connections[n].channel.fd == fd;
        assert n in s.connections;
      }
    }
  }

  /** The tables of a started server with no connections: only system channels, all watched. */
  ghost predicate Started(server: TcpServer)
    reads *
  {
    && server.loop.poller.Valid() && server.connections == map[] && server.nextConnectId == 0
    && (forall fd <- server.loop.poller.channels :: server.loop.poller.Interests()[fd] == ON)
    && (forall i :: 0 <= i < |server.loop.pending| ==> server.loop.pending[i].UserFunctor?)
  }

  function StartState(server: TcpServer): State
    reads server, server.loop, server.loop.poller
  {
    State(server.serverName, Check, 0, map[], map[],
          map fd <- server.loop.poller.channels :: if fd == server.acceptor.channel.fd then Acceptor else System,
          map fd <- server.loop.poller.channels :: ON, seq(|server.loop.pending|, i => UserWork))
  }

  /** Such a server is where runs begin. */
  lemma StartedIsInitial(server: TcpServer)
    requires Started(server)
    ensures Initial(StartState(server)) && Represents(server, map[], StartState(server))
  {
    server.loop.poller.InterestKeys();
    hide Bijection, Table;
    SameTable(server.loop.poller.Interests(), StartState(server).interests);
  }

  /** Every entry of `connections_` is a connected object under its own name, whose callback has been called
      once, that has not been closed, and that is watched for reading through its own channel. */
  ghost predicate OpenObjects(server: TcpServer)
    reads *
  {
    && server.loop.poller.Valid()
    && forall n <- server.connections :: OpenObject(server, n)
  }

  ghost predicate OpenObject(server: TcpServer, n: string)
    requires n in server.connections && server.loop.poller.Valid()
    reads *
  {
    var c := server.connections[n];
    && c.name == n && c.state == Connected && c.history == [Connected] && c.closes == 0
    && server.loop.poller.Holds(c.channel) && c.channel.fd in server.loop.poller.Interests()
    && server.loop.poller.Interests()[c.channel.fd] == Interest(Mask({In, Pri}), true)
  }

  lemma ConnectionsAreOpen(server: TcpServer, conns: map<nat, TcpConnection>, s: State)
    requires Represents(server, conns, s) && Inv(s)
    ensures OpenObjects(server)
  {
    hide Bijection, Table;
    forall n <- server.connections
      ensures OpenObject(server, n)
    {
      ConnectionIsOpen(server, conns, s, n);
    }
  }

  lemma ConnectionIsOpen(server: TcpServer, conns: map<nat, TcpConnection>, s: State, n: string)
    requires Represents(server, conns, s) && Inv(s) && n in server.connections
    ensures OpenObject(server, n)
  {
    hide Bijection, Table;
    var id := s.connections[n];
    assert n == ConnectionName(s.name, id) && Placed(s, id);
    assert Polled(s, s.objects[id].fd);
  }

  lemma ObjectsAgree(server: TcpServer, conns: map<nat, TcpConnection>, s0: State, trace: seq<Event>, s: State)
    requires Initial(s0) && Run(s0, trace) == Reached(s) && Represents(server, conns, s)
    ensures server.loop.poller.Valid()
    ensures s.stage.Check? ==>
              server.loop.poller.Interests() == Watched(s0.owner.Keys + OpenDescriptors(server))
  {
    hide Bijection, Table, Initial, Run, OpenDescriptors, OpenFds;
    SameDescriptors(server, conns, s);
    if s.stage.Check? {
      WholeRunAgreement(s0, trace);
    }
  }

  /** What holds at every moment of a server's life. */
  ghost predicate Running(server: TcpServer, s0: State, trace: seq<Event>, conns: map<nat, TcpConnection>, s: State,
                          batch: seq<Functor>, active: seq<Channel>, own: set<object>)
    reads *
  {
    && Run(s0, trace) == Reached(s) && Inv(s)
    && Represents(server, conns, s) && Owns(own, server.loop.poller.channels, conns)
    && Draining(batch, conns, s) && Handling(server.loop.poller.channels, active, s)
  }

  method TurnPoll(server: TcpServer, ghost s0: State, ghost trace: seq<Event>, conns: map<nat, TcpConnection>, s: State,
                  batch: seq<Functor>, active: seq<Channel>, ret: int, revents: seq<Mask>, ghost own: set<object>)
    returns (ghost trace': seq<Event>, s': State, active': seq<Channel>)
    requires Initial(s0) && Running(server, s0, trace, conns, s, batch, active, own)
    requires s.stage.Check? && server.loop.poller.PollReturns(ret, revents)
    modifies server.loop.poller`pollfds, server.loop.poller.channels.Values`revents
    ensures Running(server, s0, trace', conns, s', batch, active', own)
  {
    hide Initial, Run, Inv, Represents, Enabled, Step, Successor, Draining, Handling, Descriptors, Bijection, Table;
    active' := PollOnce(server, conns, s, ret, revents);
    var e := Poll(Descriptors(active'));
    DrainingAfter(batch, batch, conns, conns, s, e, 0);
    trace' := SuccessorIsRun(s0, trace, s, e, 0);
    s' := Successor(s, e, 0);
  }

  method TurnHandler(server: TcpServer, ghost s0: State, ghost trace: seq<Event>, conns: map<nat, TcpConnection>,
                     s: State, batch: seq<Functor>, active: seq<Channel>, e: Event, ghost own: set<object>)
    returns (ghost trace': seq<Event>, conns': map<nat, TcpConnection>, s': State, active': seq<Channel>,
             ghost own': set<object>)
    requires Initial(s0) && Running(server, s0, trace, conns, s, batch, active, own)
    requires Enabled(s, e) && Handles(e)
    modifies server, server.loop, server.loop.poller, own
    ensures Running(server, s0, trace', conns', s', batch, active', own') && fresh(own' - own)
  {
    hide Initial, Run, Inv, Represents, Enabled, Step, Successor, Draining, Handling, Descriptors, Keeps, Owns;
    hide Bijection, Table;
    var n;
    ActiveLeft(server.loop.poller.channels, active, s, e);
    conns', n, own' := HandleNext(server, conns, s, active, e, own);
    active' := active[1..];
    HandlingAfter(old(server.loop.poller.channels), server.loop.poller.channels, active, active', s, e, n);
    DrainingAfter(batch, batch, conns, conns', s, e, n);
    trace' := SuccessorIsRun(s0, trace, s, e, n);
    s' := Successor(s, e, n);
  }

  lemma ActiveLeft(channels: map<int, Channel>, active: seq<Channel>, s: State, e: Event)
    requires Handling(channels, active, s) && Enabled(s, e) && Handles(e)
    ensures active != []
  {
  }

  method TurnOther(server: TcpServer, ghost s0: State, ghost trace: seq<Event>, conns: map<nat, TcpConnection>,
                   s: State, batch: seq<Functor>, active: seq<Channel>, e: Event, f: nat, ghost own: set<object>)
    returns (ghost trace': seq<Event>, s': State, batch': seq<Functor>)
    requires Initial(s0) && Running(server, s0, trace, conns, s, batch, active, own)
    requires Enabled(s, e) && !e.Poll? && !Handles(e)
    modifies server, server.loop, server.loop.poller, own
    ensures Running(server, s0, trace', conns, s', batch', active, own)
  {
    hide Initial, Run, Inv, Represents, Enabled, Step, Successor, Draining, Handling, Descriptors, Keeps, Owns;
    hide Advanced, Bijection, Table;
    var n;
    batch', n := Perform(server, conns, s, batch, e, f, own);
    HandlingAfter(old(server.loop.poller.channels), server.loop.poller.channels, active, active, s, e, n);
    DrainingAfter(batch, batch', conns, conns, s, e, n);
    trace' := SuccessorIsRun(s0, trace, s, e, n);
    s' := Successor(s, e, n);
  }

  /** Whatever can happen next. */
  method Turn(server: TcpServer, ghost s0: State, ghost trace: seq<Event>, conns: map<nat, TcpConnection>, s: State,
              batch: seq<Functor>, active: seq<Channel>, ghost own: set<object>)
    returns (ghost trace': seq<Event>, conns': map<nat, TcpConnection>, s': State, batch': seq<Functor>,
             active': seq<Channel>, ghost own': set<object>)
    requires Initial(s0) && Running(server, s0, trace, conns, s, batch, active, own)
    modifies server, server.loop, server.loop.poller, own
    ensures Running(server, s0, trace', conns', s', batch', active', own') && fresh(own' - own)
  {
    ChannelsOwned(own, server, conns);
    hide Initial, Running, Enabled, Handles, Poller.PollReturns;
    trace', conns', s', batch', active', own' := trace, conns, s, batch, active, own;
    var e: Event, f: nat, ret: int, revents: seq<Mask> := *, *, *, *;
    if e.Poll? {
      if s.stage.Check? && server.loop.poller.PollReturns(ret, revents) {
        trace', s', active' := TurnPoll(server, s0, trace, conns, s, batch, active, ret, revents, own);
      }
    } else if Enabled(s, e) {
      if Handles(e) {
        trace', conns', s', active', own' := TurnHandler(server, s0, trace, conns, s, batch, active, e, own);
      } else {
        trace', s', batch' := TurnOther(server, s0, trace, conns, s, batch, active, e, f, own);
      }
    }
  }

  lemma ChannelsOwned(own: set<object>, server: TcpServer, conns: map<nat, TcpConnection>)
    requires Owns(own, server.loop.poller.channels, conns)
    ensures forall c <- server.loop.poller.channels.Values :: c in own
  {
  }

  /** Any history of a started server: whatever happens, in whatever order the loop allows, the objects
      hold the state that the machine has reached by a run in which no assert failed; every channel
      still to be handled in a pass is the one registered for its descriptor; and when the loop
      evaluates its condition, the poller watches exactly what it did at the start and the descriptors
      of the connections in `connections_`. */
  method Serve(server: TcpServer, rounds: nat)
    returns (ghost trace: seq<Event>, conns: map<nat, TcpConnection>, s: State, active: seq<Channel>)
    requires Started(server)
    modifies server, server.loop, server.loop.poller, server.loop.poller.channels.Values
    ensures server.loop.poller.Valid()
    ensures Run(old(StartState(server)), trace) == Reached(s) && Represents(server, conns, s)
    ensures Handling(server.loop.poller.channels, active, s) && OpenObjects(server)
    ensures s.stage.Check? ==>
              server.loop.poller.Interests() ==
              Watched(old(server.loop.poller.channels.Keys) + OpenDescriptors(server))
  {
    StartedIsInitial(server);
    ghost var s0 := StartState(server);
    s := StartState(server);
    ghost var own: set<object> := server.loop.poller.channels.Values;
    var batch: seq<Functor>, k := [], rounds;
    trace, conns, active := [], map[], [];
    StartsRunning(server, s0, own);
    hide Running, Initial, Started, StartState, Inv, Represents, OpenObjects;
    while k > 0
      invariant Running(server, s0, trace, conns, s, batch, active, own)
      invariant fresh(own - old(server.loop.poller.channels.Values))
    {
      trace, conns, s, batch, active, own := Turn(server, s0, trace, conns, s, batch, active, own);
      k := k - 1;
    }
    IsRunning(server, s0, trace, conns, s, batch, active, own);
    ConnectionsAreOpen(server, conns, s);
    ObjectsAgree(server, conns, s0, trace, s);
  }

  lemma StartsRunning(server: TcpServer, s0: State, own: set<object>)
    requires Initial(s0) && Represents(server, map[], s0) && own == server.loop.poller.channels.Values
    ensures Running(server, s0, [], map[], s0, [], [], own)
  {
    InitialInv(s0);
    hide Represents;
  }

  lemma IsRunning(server: TcpServer, s0: State, trace: seq<Event>, conns: map<nat, TcpConnection>, s: State,
                  batch: seq<Functor>, active: seq<Channel>, own: set<object>)
    requires Running(server, s0, trace, conns, s, batch, active, own)
    ensures Run(s0, trace) == Reached(s) && Represents(server, conns, s) && Inv(s)
    ensures Handling(server.loop.poller.channels, active, s)
  {
  }

  lemma ReadingAlone(before: set<Bit>)
    requires before == {}
    ensures Mask(before + READ_EVENT.bits) == READ_EVENT
  {
    forall b
      ensures b in before + READ_EVENT.bits <==> b in READ_EVENT.bits
    {
    }
  }

  /** A channel of the loop's own, watched from its construction on. */
  method Watch(poller: Poller, fd: int)
    requires poller.Valid() && fd >= 0 && fd !in poller.channels
    modifies poller
    ensures poller.Valid() && poller.channels.Keys == old(poller.channels.Keys) + {fd}
    ensures forall k <- poller.channels :: k == fd || poller.channels[k] == old(poller.channels)[k]
    ensures fresh(poller.channels[fd])
    ensures poller.Interests() == old(poller.Interests())[fd := ON]
  {
    var channel := new Channel(fd);
    ReadingAlone(channel.events.bits);
    assert In in READ_EVENT.bits;
    hide Bijection, Table;
    channel.EnableReading(poller);
  }

  /** The tables of an event loop with its timer and wakeup channels. */
  method NewLoop(timerFd: int, wakeupFd: int) returns (loop: Loop)
    requires timerFd >= 0 && wakeupFd >= 0 && timerFd != wakeupFd
    ensures fresh(loop) && fresh(loop.poller) && fresh(loop.poller.channels.Values)
    ensures loop.pending == [] && loop.poller.Valid()
    ensures loop.poller.channels.Keys == {timerFd, wakeupFd} && AllOn(loop.poller.Interests())
  {
    hide Bijection, Table;
    var poller := new Poller();
    Watch(poller, timerFd);
    Watch(poller, wakeupFd);
    loop := new Loop(poller);
  }

  ghost predicate AllOn(m: map<int, Interest>) {
    forall fd <- m :: m[fd] == ON
  }

  lemma IsStarted(server: TcpServer)
    requires server.loop.poller.Valid() && AllOn(server.loop.poller.Interests())
    requires server.connections == map[] && server.nextConnectId == 0 && server.loop.pending == []
    ensures Started(server)
  {
    server.loop.poller.InterestKeys();
    hide Bijection, Table;
  }

  lemma OneMoreOn(m: map<int, Interest>, fd: int)
    requires AllOn(m)
    ensures AllOn(m[fd := ON])
  {
  }

  /** A server on it, started. */
  method NewServer(loop: Loop, name: string, acceptFd: int) returns (server: TcpServer)
    requires loop.pending == [] && loop.poller.Valid() && acceptFd >= 0 && acceptFd !in loop.poller.channels
    requires AllOn(loop.poller.Interests())
    modifies loop.poller
    ensures fresh(server) && server.loop == loop && Started(server)
    ensures loop.poller.channels.Keys == old(loop.poller.channels.Keys) + {acceptFd}
    ensures fresh(loop.poller.channels.Values - old(loop.poller.channels.Values))
  {
    hide Bijection, Table, Started, AllOn;
    OneMoreOn(loop.poller.Interests(), acceptFd);
    server := new TcpServer(loop, name, acceptFd);
    server.Start();
    IsStarted(server);
  }

  method NewProgram(name: string, timerFd: int, wakeupFd: int, acceptFd: int) returns (server: TcpServer)
    requires timerFd >= 0 && wakeupFd >= 0 && acceptFd >= 0
    requires timerFd != wakeupFd && timerFd != acceptFd && wakeupFd != acceptFd
    ensures fresh(server) && fresh(server.loop) && fresh(server.loop.poller) && Started(server)
    ensures fresh(server.loop.poller.channels.Values)
    ensures server.loop.poller.channels.Keys == {timerFd, wakeupFd, acceptFd}
  {
    hide Bijection, Table, Started, AllOn;
    var loop := NewLoop(timerFd, wakeupFd);
    server := NewServer(loop, name, acceptFd);
  }

  /** A program: a loop, a started server on it, and then anything. */
  method Launch(name: string, timerFd: int, wakeupFd: int, acceptFd: int, rounds: nat)
    returns (server: TcpServer, ghost trace: seq<Event>, s: State)
    requires timerFd >= 0 && wakeupFd >= 0 && acceptFd >= 0
    requires timerFd != wakeupFd && timerFd != acceptFd && wakeupFd != acceptFd
    ensures server.loop.poller.Valid() && OpenObjects(server)
    ensures s.stage.Check? ==>
              server.loop.poller.Interests() == Watched({timerFd, wakeupFd, acceptFd} + OpenDescriptors(server))
  {
    hide Started, StartState, Run, Represents, Handling, OpenDescriptors, OpenObjects, Watched, Table;
    var conns, active;
    server := NewProgram(name, timerFd, wakeupFd, acceptFd);
    trace, conns, s, active := Serve(server, rounds);
  }
}
