/** Acceptor, TcpServer and TcpConnection on one loop: connections come and go during dispatch, and
    are unregistered by functors that the same iteration's drain runs. */
module TcpServing {
  import opened Polling
  import opened Decimals

  datatype Phase = Connecting | Connected | DisConnected

  /** What read_fd yields.  An error is -1 in an unsigned variable, so it takes the data branch. */
  datatype ReadOutcome = Data | EndOfFile | Error

  datatype Functor = UserFunctor(n: nat) | DestroyFunctor(connection: TcpConnection)

  // Names: the server's name, '#', and the decimal form of the connection's number.

  function ConnectionName(server: string, id: nat): string {
    server + "#" + Digits(id)
  }

  /** The server's name, '#', and the number in decimal without leading zeros. */
  lemma NameIsReadable(server: string, id: nat)
    ensures var name := ConnectionName(server, id);
            && |name| > |server| + 1 && name[..|server|] == server && name[|server|] == '#'
            && ValueOf(name[|server| + 1..]) == id
            && (name[|server| + 1] == '0' ==> id == 0 && |name| == |server| + 2)
  {
    var name := ConnectionName(server, id);
    DigitsDenote(id);
    DigitsAreShort(id);
    assert name[|server| + 1..] == Digits(id);
  }

  lemma NamesAreInjective(server: string, i: nat, j: nat)
    requires ConnectionName(server, i) == ConnectionName(server, j)
    ensures i == j
  {
    var p := server + "#";
    assert Digits(i) == ConnectionName(server, i)[|p|..] == ConnectionName(server, j)[|p|..] == Digits(j);
    DigitsDenote(i);
    DigitsDenote(j);
  }

  /** The parts of EventLoop that connections use. */
  class Loop {
    const poller: Poller
    var pending: seq<Functor>

    constructor (poller: Poller)
      ensures this.poller == poller && pending == []
    {
      this.poller := poller;
      pending := [];
    }

    method QueueInLoop(f: Functor)
      modifies this
      ensures pending == old(pending) + [f]
    {
      pending := pending + [f];
    }

    /** User callbacks, and other threads meanwhile, may queue functors of their own. */
    method User()
      modifies this
      ensures Adds(old(pending), pending)
    {
      var n: nat := *;
      while n > 0
        invariant Adds(old(pending), pending)
      {
        var k: nat := *;
        QueueInLoop(UserFunctor(k));
        n := n - 1;
      }
    }
  }

  /** `after` is `before` with user functors appended. */
  ghost predicate Adds(before: seq<Functor>, after: seq<Functor>) {
    before <= after && forall i :: |before| <= i < |after| ==> after[i].UserFunctor?
  }

  const ON := Interest(READ_EVENT, true)
  const OFF := Interest(NONE_EVENT, false)

  /** How far a connection has come: its state, the states its connection callback has seen, the
      calls of handle_close, and what its channel is set to. */
  datatype Life = Life(state: Phase, history: seq<Phase>, closes: nat, events: Mask, added: bool)

  const OPENED := Life(Connected, [Connected], 0, READ_EVENT, true)
  const CLOSING := Life(Connected, [Connected], 1, NONE_EVENT, true)
  const GONE := Life(DisConnected, [Connected, DisConnected], 1, NONE_EVENT, false)

  class TcpConnection {
    const name: string
    const channel: Channel
    var state: Phase
    ghost var history: seq<Phase>   // the state each call of connection_callback_ has seen
    ghost var closes: nat           // calls of handle_close
    ghost var messages: nat         // calls of message_callback_

    constructor (name: string, fd: int)
      ensures this.name == name && fresh(channel) && channel.fd == fd
      ensures state == Connecting && history == [] && closes == 0 && messages == 0
      ensures channel.events == NONE_EVENT && channel.index == -1 && !channel.added
    {
      this.name := name;
      channel := new Channel(fd);
      state, history, closes, messages := Connecting, [], 0, 0;
    }

    method ConnectEstablish(loop: Loop)
      requires state == Connecting && channel.events == NONE_EVENT
      requires loop.poller.Valid() && loop.poller.Accepts(channel) && channel.fd !in loop.poller.channels
      modifies this, channel, loop, loop.poller
      ensures state == Connected && history == old(history) + [Connected] && closes == old(closes)
      ensures messages == old(messages)
      ensures channel.events == READ_EVENT && channel.added
      ensures loop.poller.Valid() && loop.poller.channels == old(loop.poller.channels)[channel.fd := channel]
      ensures loop.poller.Interests() == old(loop.poller.Interests())[channel.fd := ON]
      ensures Adds(old(loop.pending), loop.pending)
    {
      hide Polling.Bijection, Polling.Table;
      state := Connected;
      channel.EnableReading(loop.poller);
      history := history + [state];
      loop.User();
    }

    method ConnectDestroyed(loop: Loop)
      requires state == Connected
      requires loop.poller.Valid() && loop.poller.Holds(channel)
      modifies this, channel, loop, loop.poller, loop.poller.channels.Values`index
      ensures state == DisConnected && history == old(history) + [DisConnected] && closes == old(closes)
      ensures messages == old(messages)
      ensures channel.events == NONE_EVENT && !channel.added
      ensures loop.poller.Valid() && loop.poller.channels == old(loop.poller.channels) - {channel.fd}
      ensures loop.poller.Interests() == old(loop.poller.Interests()) - {channel.fd}
      ensures Adds(old(loop.pending), loop.pending)
    {
      hide Polling.Bijection, Polling.Table;
      Disconnect(loop);
      channel.Remove(loop.poller);
    }

    /** connect_destoryed up to the end of the connection callback. */
    method Disconnect(loop: Loop)
      requires state == Connected
      requires loop.poller.Valid() && loop.poller.Holds(channel)
      modifies this, channel, loop, loop.poller
      ensures state == DisConnected && history == old(history) + [DisConnected] && closes == old(closes)
      ensures messages == old(messages)
      ensures channel.events == NONE_EVENT && channel.added
      ensures loop.poller.Valid() && loop.poller.channels == old(loop.poller.channels)
      ensures loop.poller.Interests() == old(loop.poller.Interests())[channel.fd := OFF]
      ensures Adds(old(loop.pending), loop.pending)
    {
      hide Polling.Bijection, Polling.Table;
      loop.poller.InterestKeys();
      state := DisConnected;
      channel.DisableAll(loop.poller);
      history := history + [state];
      loop.User();
    }

    ghost function Now(): Life
      reads this, channel`events, channel`added
    {
      Life(state, history, closes, channel.events, channel.added)
    }

    /** A read of zero bytes closes; anything else, an error included, is given to the user. */
    method HandleRead(server: TcpServer, outcome: ReadOutcome)
      requires state == Connected && server.loop.poller.Valid() && server.loop.poller.Holds(channel)
      requires outcome == EndOfFile ==> name in server.connections
      modifies this`closes, this`messages, channel, server`connections, server.loop, server.loop.poller
      ensures server.loop.poller.Valid() && server.loop.poller.channels == old(server.loop.poller.channels)
      ensures state == old(state) && history == old(history)
      ensures messages == old(messages) + (if outcome == EndOfFile then 0 else 1)
      ensures outcome == EndOfFile ==>
                && closes == old(closes) + 1 && channel.events == NONE_EVENT && channel.added
                && server.connections == old(server.connections) - {name}
                && server.loop.pending == old(server.loop.pending) + [DestroyFunctor(this)]
                && server.loop.poller.Interests() == old(server.loop.poller.Interests())[channel.fd := OFF]
      ensures outcome != EndOfFile ==>
                && Now() == old(Now()) && server.connections == old(server.connections)
                && server.loop.poller.Interests() == old(server.loop.poller.Interests())
                && Adds(old(server.loop.pending), server.loop.pending)
    {
      hide Polling.Bijection, Polling.Table;
      if outcome == EndOfFile {
        HandleClose(server);
      } else {
        messages := messages + 1;
        server.loop.User();
      }
    }

    /** Unregisters the interest at once, forgets the connection at once, and leaves its destruction to
        the queue. */
    method HandleClose(server: TcpServer)
      requires state == Connected && server.loop.poller.Valid() && server.loop.poller.Holds(channel)
      requires name in server.connections
      modifies this`closes, channel, server`connections, server.loop, server.loop.poller
      ensures closes == old(closes) + 1 && channel.events == NONE_EVENT && channel.added
      ensures server.connections == old(server.connections) - {name}
      ensures server.loop.pending == old(server.loop.pending) + [DestroyFunctor(this)]
      ensures server.loop.poller.Valid() && server.loop.poller.channels == old(server.loop.poller.channels)
      ensures server.loop.poller.Interests() == old(server.loop.poller.Interests())[channel.fd := OFF]
    {
      Shut(server.loop.poller);
      server.RemoveConnection(this);
    }

    /** The part of handle_close before the close callback. */
    method Shut(p: Poller)
      requires p.Valid() && p.Holds(channel)
      modifies this`closes, channel, p
      ensures closes == old(closes) + 1 && channel.events == NONE_EVENT && channel.added
      ensures p.Valid() && p.channels == old(p.channels)
      ensures p.Interests() == old(p.Interests())[channel.fd := OFF]
    {
      hide Polling.Bijection, Polling.Table;
      p.InterestKeys();
      closes := closes + 1;
      channel.DisableAll(p);
      assert p.channels == old(p.channels);
    }
  }

  class Acceptor {
    const channel: Channel
    var listening: bool

    constructor (fd: int)
      ensures fresh(channel) && channel.fd == fd && channel.events == NONE_EVENT && channel.index == -1 && !listening
    {
      channel := new Channel(fd);
      listening := false;
    }

    method Listen(p: Poller)
      requires p.Valid() && p.Accepts(channel)
      requires channel.events == NONE_EVENT || channel.events == READ_EVENT
      modifies this, channel, p
      ensures p.Valid() && p.channels == old(p.channels)[channel.fd := channel]
      ensures p.Interests() == old(p.Interests())[channel.fd := ON]
      ensures listening && channel.events == READ_EVENT
    {
      forall b ensures b in channel.events.bits + READ_EVENT.bits <==> b in READ_EVENT.bits {}
      assert In in READ_EVENT.bits;
      hide Polling.Bijection, Polling.Table;
      listening := true;
      channel.EnableReading(p);
      assert channel.events == READ_EVENT;
    }

    /** One accept: a negative result is dropped, any other descriptor becomes a connection. */
    method HandleRead(server: TcpServer, accepted: int)
      requires server.loop.poller.Valid()
      requires accepted >= 0 ==> accepted !in server.loop.poller.channels
      modifies server`connections, server`nextConnectId, server.loop, server.loop.poller
      ensures server.loop.poller.Valid()
      ensures accepted < 0 ==>
                && server.connections == old(server.connections) && server.nextConnectId == old(server.nextConnectId)
                && server.loop.poller.channels == old(server.loop.poller.channels)
                && server.loop.poller.Interests() == old(server.loop.poller.Interests())
                && server.loop.pending == old(server.loop.pending)
      ensures accepted >= 0 ==>
                && server.nextConnectId == old(server.nextConnectId) + 1
                && var name := ConnectionName(server.serverName, server.nextConnectId);
                && name in server.connections && fresh(server.connections[name])
                && fresh(server.connections[name].channel) && server.connections[name].Now() == OPENED
                && server.connections[name].name == name && server.connections[name].channel.fd == accepted
                && server.connections == old(server.connections)[name := server.connections[name]]
                && server.loop.poller.channels ==
                   old(server.loop.poller.channels)[accepted := server.connections[name].channel]
                && server.loop.poller.Interests() == old(server.loop.poller.Interests())[accepted := ON]
                && Adds(old(server.loop.pending), server.loop.pending)
    {
      hide Polling.Bijection, Polling.Table;
      if accepted >= 0 {
        var connection := server.NewConnection(accepted);
      }
    }
  }

  class TcpServer {
    const loop: Loop
    const serverName: string
    const acceptor: Acceptor
    var started: bool
    var connections: map<string, TcpConnection>
    var nextConnectId: nat

    constructor (loop: Loop, serverName: string, acceptFd: int)
      ensures this.loop == loop && this.serverName == serverName && connections == map[] && nextConnectId == 0
      ensures fresh(acceptor) && fresh(acceptor.channel) && acceptor.channel.fd == acceptFd
      ensures acceptor.channel.events == NONE_EVENT && acceptor.channel.index == -1 && !acceptor.listening && !started
    {
      this.loop, this.serverName := loop, serverName;
      acceptor := new Acceptor(acceptFd);
      started, connections, nextConnectId := false, map[], 0;
    }

    /** Listening registers the acceptor; doing it again changes nothing. */
    method Start()
      requires loop.poller.Valid() && loop.poller.Accepts(acceptor.channel)
      requires acceptor.channel.events == NONE_EVENT || acceptor.channel.events == READ_EVENT
      modifies this`started, acceptor, acceptor.channel, loop.poller
      ensures loop.poller.Valid()
      ensures loop.poller.channels == old(loop.poller.channels)[acceptor.channel.fd := acceptor.channel]
      ensures loop.poller.Interests() == old(loop.poller.Interests())[acceptor.channel.fd := ON]
      ensures started && acceptor.listening && acceptor.channel.events == READ_EVENT
    {
      hide Polling.Bijection, Polling.Table;
      started := true;
      acceptor.Listen(loop.poller);
    }

    /** A connection accepted on a descriptor the poller does not know. */
    method NewConnection(fd: int) returns (connection: TcpConnection)
      requires loop.poller.Valid() && fd >= 0 && fd !in loop.poller.channels
      modifies this`connections, this`nextConnectId, loop, loop.poller
      ensures nextConnectId == old(nextConnectId) + 1
      ensures fresh(connection) && fresh(connection.channel) && connection.channel.fd == fd
      ensures connection.name == ConnectionName(serverName, nextConnectId) && connection.Now() == OPENED
      ensures connections == old(connections)[connection.name := connection]
      ensures loop.poller.Valid() && loop.poller.channels == old(loop.poller.channels)[fd := connection.channel]
      ensures loop.poller.Interests() == old(loop.poller.Interests())[fd := ON]
      ensures Adds(old(loop.pending), loop.pending)
    {
      hide Polling.Bijection, Polling.Table;
      nextConnectId := nextConnectId + 1;
      connection := new TcpConnection(ConnectionName(serverName, nextConnectId), fd);
      connections := connections[connection.name := connection];
      connection.ConnectEstablish(loop);
    }

    /** The erase must remove exactly one entry; destruction is left to the drain. */
    method RemoveConnection(c: TcpConnection)
      requires c.name in connections
      modifies this`connections, loop
      ensures connections == old(connections) - {c.name}
      ensures loop.pending == old(loop.pending) + [DestroyFunctor(c)]
    {
      connections := connections - {c.name};
      loop.QueueInLoop(DestroyFunctor(c));
    }
  }
}
