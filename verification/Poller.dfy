/** Channel and Poller: the dense `pollfds_` vector, the fd-to-channel map and the back-index kept
    in each channel, refined to a plain map from fd to interest. */
module Polling {

  /** The bits of a `short` event mask; Sign is the one that makes it negative. */
  datatype Bit = In | Pri | Out | Err | Hup | Nval | Other(n: nat) | Sign

  /** A mask is the set of its bits. */
  datatype Mask = Mask(bits: set<Bit>)

  const NONE_EVENT := Mask({})
  const READ_EVENT := Mask({In, Pri})

  /** A `short` greater than zero. */
  predicate Positive(revents: Mask) {
    revents != NONE_EVENT && Sign !in revents.bits
  }

  /** That is, of the sixteen-bit number whose other bits come to `magnitude`. */
  lemma PositiveIsAboveZero(revents: Mask, magnitude: int)
    requires 0 <= magnitude < 0x8000 && (magnitude == 0 <==> forall b <- revents.bits :: b == Sign)
    ensures Positive(revents) <==> (if Sign in revents.bits then magnitude - 0x8000 else magnitude) > 0
  {
    if Sign !in revents.bits {
      if b :| b in revents.bits {
        assert revents != NONE_EVENT;
      }
    }
  }

  datatype PollFd = PollFd(fd: int, events: Mask, revents: Mask)

  /** The operator `~` on an int. */
  function Complement(fd: int): int {
    -fd - 1
  }

  /** The descriptor an entry is about: a disabled entry holds its complement. */
  function Key(fd: int): int {
    if fd < 0 then Complement(fd) else fd
  }

  /** What a registered descriptor is watched for.  An entry that is not watched is one whose
      descriptor is stored complemented, so that poll() ignores it. */
  datatype Interest = Interest(events: Mask, watched: bool)

  /** A descriptor's complement is the negative number that differs from it in every bit. */
  lemma ComplementIsMirror(fd: int)
    ensures fd + Complement(fd) == -1 && Complement(Complement(fd)) == fd && (fd >= 0 <==> Complement(fd) < 0)
    ensures fd >= 0 ==> Key(fd) == fd == Key(Complement(fd))
  {
  }

  // The specification: a plain map.

  /** A first registration is always watched; a later one is watched unless its mask is empty. */
  function Updated(m: map<int, Interest>, fd: int, events: Mask): map<int, Interest> {
    m[fd := Interest(events, fd !in m || events != NONE_EVENT)]
  }

  /** Only the one key changes, and only an empty mask of a registered descriptor stops the watching. */
  lemma UpdatedMeaning(m: map<int, Interest>, fd: int, events: Mask, other: int)
    ensures other != fd ==> (other in Updated(m, fd, events) <==> other in m)
    ensures other != fd && other in m ==> Updated(m, fd, events)[other] == m[other]
    ensures fd in Updated(m, fd, events) && Updated(m, fd, events)[fd].events == events
    ensures events.bits != {} || fd !in m ==> Updated(m, fd, events)[fd].watched
    ensures events.bits == {} && fd in m ==> !Updated(m, fd, events)[fd].watched
  {
  }

  /** The vector and a back-index form a bijection: `slot[fd]` is i exactly when entry i holds
      fd or ~fd. */
  ghost predicate Bijection(p: seq<PollFd>, slot: map<int, nat>) {
    && (forall i :: 0 <= i < |p| ==> Key(p[i].fd) in slot && slot[Key(p[i].fd)] == i)
    && (forall fd :: fd in slot ==> fd >= 0 && slot[fd] < |p| && Key(p[slot[fd]].fd) == fd)
    && (forall i :: 0 <= i < |p| && p[i].fd < 0 ==> p[i].events == NONE_EVENT)
  }

  /** The abstraction: what the vector says about each registered descriptor. */
  ghost function Table(p: seq<PollFd>, slot: map<int, nat>): map<int, Interest>
    requires Bijection(p, slot)
  {
    map fd | fd in slot :: Interest(p[slot[fd]].events, p[slot[fd]].fd >= 0)
  }

  lemma SameTable(a: map<int, Interest>, b: map<int, Interest>)
    requires a.Keys == b.Keys
    requires forall k :: k in a.Keys ==> a[k] == b[k]
    ensures a == b
  {
    forall k | k in a.Keys ensures a[k] == b[k] {}
  }

  lemma AppendEntry(p: seq<PollFd>, slot: map<int, nat>, fd: int, events: Mask)
    requires Bijection(p, slot) && fd >= 0 && fd !in slot
    ensures var p' := p + [PollFd(fd, events, NONE_EVENT)];
            && Bijection(p', slot[fd := |p|])
            && Table(p', slot[fd := |p|]) == Updated(Table(p, slot), fd, events)
  {
    var p', slot' := p + [PollFd(fd, events, NONE_EVENT)], slot[fd := |p|];
    assert Bijection(p', slot');
    SameTable(Table(p', slot'), Updated(Table(p, slot), fd, events));
  }

  lemma ReplaceEntry(p: seq<PollFd>, slot: map<int, nat>, fd: int, events: Mask)
    requires Bijection(p, slot) && fd in slot
    ensures var p' := p[slot[fd] := PollFd(if events == NONE_EVENT then Complement(fd) else fd, events, NONE_EVENT)];
            && Bijection(p', slot)
            && Table(p', slot) == Updated(Table(p, slot), fd, events)
  {
    var p' := p[slot[fd] := PollFd(if events == NONE_EVENT then Complement(fd) else fd, events, NONE_EVENT)];
    assert Bijection(p', slot);
    SameTable(Table(p', slot), Updated(Table(p, slot), fd, events));
  }

  /** Swap with the last entry and pop. */
  function SwapPop(p: seq<PollFd>, idx: nat): seq<PollFd>
    requires idx < |p|
  {
    p[idx := p[|p| - 1]][..|p| - 1]
  }

  function SwapWithLast(p: seq<PollFd>, idx: nat): (r: seq<PollFd>)
    requires idx < |p|
    ensures |r| == |p| && r[idx] == p[|p| - 1]
    ensures r[..|p| - 1] == SwapPop(p, idx)
  {
    p[idx := p[|p| - 1]][|p| - 1 := p[idx]]
  }

  /** The back-index after that: the last entry's descriptor takes over the freed slot. */
  ghost function Reslot(p: seq<PollFd>, slot: map<int, nat>, fd: int): map<int, nat>
    requires p != [] && fd in slot
  {
    slot[Key(p[|p| - 1].fd) := slot[fd]] - {fd}
  }

  lemma RemoveEntry(p: seq<PollFd>, slot: map<int, nat>, fd: int)
    requires Bijection(p, slot) && fd in slot
    ensures slot[fd] < |p| && Key(p[|p| - 1].fd) in slot
    ensures Key(p[|p| - 1].fd) == fd <==> slot[fd] == |p| - 1
    ensures Bijection(SwapPop(p, slot[fd]), Reslot(p, slot, fd))
    ensures Table(SwapPop(p, slot[fd]), Reslot(p, slot, fd)) == Table(p, slot) - {fd}
  {
    var last := Key(p[|p| - 1].fd);
    assert slot[last] == |p| - 1;
    var slot' := Reslot(p, slot, fd);
    var p' := SwapPop(p, slot[fd]);
    forall i | 0 <= i < |p'| ensures Key(p'[i].fd) in slot' && slot'[Key(p'[i].fd)] == i {
      assert p'[i] == if i == slot[fd] then p[|p| - 1] else p[i];
    }
    assert Bijection(p', slot');
    SameTable(Table(p', slot'), Table(p, slot) - {fd});
  }

  datatype Callback = OnClose | OnError | OnRead | OnWrite

  /** The revents bits on which a callback is due. */
  predicate Due(cb: Callback, revents: Mask) {
    match cb
    case OnClose => Hup in revents.bits && In !in revents.bits
    case OnError => Err in revents.bits || Nval in revents.bits
    case OnRead => In in revents.bits || Pri in revents.bits
    case OnWrite => Out in revents.bits
  }

  /** The bits that are watched for reading are those on which the read callback is due; no other
      callback is due for them alone. */
  lemma ReadEventsAreRead(m: Mask)
    ensures Due(OnRead, m) <==> m.bits * READ_EVENT.bits != {}
    ensures m.bits <= READ_EVENT.bits ==> !Due(OnClose, m) && !Due(OnError, m) && !Due(OnWrite, m)
  {
    if In in m.bits {
      assert In in m.bits * READ_EVENT.bits;
    }
    if Pri in m.bits {
      assert Pri in m.bits * READ_EVENT.bits;
    }
    forall b | b in m.bits * READ_EVENT.bits
      ensures b == In || b == Pri
    {
    }
  }

  /** A channel watched for reading, when something it is watched for is reported, has its read callback
      called, whatever else is reported with it. */
  lemma WatchedReadIsCalled(bound: set<Callback>, watched: Interest, revents: Mask)
    requires OnRead in bound && watched.events == READ_EVENT && revents.bits * watched.events.bits != {}
    ensures OnRead in Invoked(CALL_ORDER, bound, revents)
    ensures bound == {OnRead} ==> Invoked(CALL_ORDER, bound, revents) == [OnRead]
  {
    ReadEventsAreRead(revents);
    InvokedOfFour(bound, revents);
  }

  class Channel {
    const fd: int
    var events: Mask
    var revents: Mask
    var index: int        // pollfds_index_
    var handling: bool    // event_handling_
    var added: bool       // added_to_loop_

    constructor (fd: int)
      ensures this.fd == fd && events == NONE_EVENT && revents == NONE_EVENT
      ensures index == -1 && !handling && !added
    {
      this.fd := fd;
      events, revents := NONE_EVENT, NONE_EVENT;
      index, handling, added := -1, false, false;
    }

    method EnableReading(p: Poller)
      requires p.Valid() && p.Accepts(this)
      modifies p, this`events, this`index, this`added
      ensures p.Valid() && p.Holds(this) && events == Mask(old(events.bits) + READ_EVENT.bits) && added
      ensures p.channels == old(p.channels)[fd := this]
      ensures p.Interests() == Updated(old(p.Interests()), fd, events)
    {
      events := Mask(events.bits + READ_EVENT.bits);
      Update(p);
    }

    method DisableAll(p: Poller)
      requires p.Valid() && p.Accepts(this)
      modifies p, this`events, this`index, this`added
      ensures p.Valid() && p.Holds(this) && events == NONE_EVENT && added
      ensures p.channels == old(p.channels)[fd := this]
      ensures p.Interests() == Updated(old(p.Interests()), fd, NONE_EVENT)
    {
      events := NONE_EVENT;
      Update(p);
    }

    method Update(p: Poller)
      requires p.Valid() && p.Accepts(this)
      modifies p, this`index, this`added
      ensures p.Valid() && p.Holds(this) && added
      ensures p.channels == old(p.channels)[fd := this]
      ensures p.Interests() == Updated(old(p.Interests()), fd, events)
    {
      p.UpdateChannel(this);
      added := true;
    }

    method Remove(p: Poller)
      requires p.Valid() && p.Holds(this) && !p.Interests()[fd].watched
      requires events == NONE_EVENT && added
      modifies p, p.channels.Values`index, this`added
      ensures p.Valid() && !added && index == old(index)
      ensures p.channels == old(p.channels) - {fd}
      ensures p.Interests() == old(p.Interests()) - {fd}
    {
      added := false;
      p.RemoveChannel(this);
    }

    /** Runs the callbacks that are both set and due, in the order of CALL_ORDER: on a hang-up without input,
        an error or invalid descriptor, input or urgent input, and room for output. */
    method HandleEvent(bound: set<Callback>) returns (calls: seq<Callback>)
      modifies this`handling
      ensures !handling && calls == Invoked(CALL_ORDER, bound, revents)
      ensures OnClose in calls <==> OnClose in bound && Hup in revents.bits && In !in revents.bits
      ensures OnError in calls <==> OnError in bound && (Err in revents.bits || Nval in revents.bits)
      ensures OnRead in calls <==> OnRead in bound && (In in revents.bits || Pri in revents.bits)
      ensures OnWrite in calls <==> OnWrite in bound && Out in revents.bits
      ensures Ranked(calls)
    {
      hide Invoked, Ranked;
      handling := true;
      calls := CallBack(bound);
      handling := false;
      InvokedIsExact(bound, revents);
    }

    /** The calls themselves. */
    method CallBack(bound: set<Callback>) returns (calls: seq<Callback>)
      ensures calls == Invoked(CALL_ORDER, bound, revents)
    {
      hide Invoked;
      calls := [];
      if Hup in revents.bits && In !in revents.bits {
        if OnClose in bound { calls := calls + [OnClose]; }
      }
      if Err in revents.bits || Nval in revents.bits {
        if OnError in bound { calls := calls + [OnError]; }
      }
      if In in revents.bits || Pri in revents.bits {
        if OnRead in bound { calls := calls + [OnRead]; }
      }
      if Out in revents.bits {
        if OnWrite in bound { calls := calls + [OnWrite]; }
      }
      InvokedOfFour(bound, revents);
    }
  }

  const CALL_ORDER := [OnClose, OnError, OnRead, OnWrite]

  /** The callbacks of `order`, in that order, that are both set and due. */
  function Invoked(order: seq<Callback>, bound: set<Callback>, revents: Mask): seq<Callback> {
    if order == [] then []
    else
      var n := |order| - 1;
      Invoked(order[..n], bound, revents) + Invocation(order[n], bound, revents)
  }

  function Invocation(cb: Callback, bound: set<Callback>, revents: Mask): seq<Callback> {
    if cb in bound && Due(cb, revents) then [cb] else []
  }

  lemma InvokedOfFour(bound: set<Callback>, revents: Mask)
    ensures Invoked(CALL_ORDER, bound, revents) ==
            Invocation(OnClose, bound, revents) + Invocation(OnError, bound, revents) +
            Invocation(OnRead, bound, revents) + Invocation(OnWrite, bound, revents)
  {
    assert CALL_ORDER[..3] == [OnClose, OnError, OnRead];
    assert [OnClose, OnError, OnRead][..2] == [OnClose, OnError];
    assert [OnClose, OnError][..1] == [OnClose];
    assert [OnClose][..0] == [];
    assert Invoked([OnClose], bound, revents) == Invocation(OnClose, bound, revents);
    assert Invoked([OnClose, OnError], bound, revents) ==
           Invoked([OnClose], bound, revents) + Invocation(OnError, bound, revents);
    assert Invoked([OnClose, OnError, OnRead], bound, revents) ==
           Invoked([OnClose, OnError], bound, revents) + Invocation(OnRead, bound, revents);
  }

  /** The close callback is called before the error, the read and the write callback, in that order. */
  predicate Precedes(a: Callback, b: Callback) {
    match a
    case OnClose => b != OnClose
    case OnError => b == OnRead || b == OnWrite
    case OnRead => b == OnWrite
    case OnWrite => false
  }

  ghost predicate Ranked(calls: seq<Callback>) {
    forall i, j :: 0 <= i < j < |calls| ==> Precedes(calls[i], calls[j])
  }

  lemma InvokedIsExact(bound: set<Callback>, revents: Mask)
    ensures var calls := Invoked(CALL_ORDER, bound, revents);
            && (OnClose in calls <==> OnClose in bound && Hup in revents.bits && In !in revents.bits)
            && (OnError in calls <==> OnError in bound && (Err in revents.bits || Nval in revents.bits))
            && (OnRead in calls <==> OnRead in bound && (In in revents.bits || Pri in revents.bits))
            && (OnWrite in calls <==> OnWrite in bound && Out in revents.bits)
            && Ranked(calls)
  {
    InvokedOfFour(bound, revents);
    hide Invoked;
  }

  predicate Distinct<T(==)>(s: seq<T>) {
    forall i, j :: 0 <= i < j < |s| ==> s[i] != s[j]
  }

  lemma DistinctAppend<T>(s: seq<T>, x: T)
    requires Distinct(s) && x !in s
    ensures Distinct(s + [x])
  {
  }

  /** The entries poll() reported, as channels, in vector order. */
  function Ready(p: seq<PollFd>, channels: map<int, Channel>): seq<Channel>
    requires forall i :: 0 <= i < |p| && Positive(p[i].revents) ==> p[i].fd in channels
  {
    if p == [] then []
    else
      var n := |p| - 1;
      Ready(p[..n], channels) + (if Positive(p[n].revents) then [channels[p[n].fd]] else [])
  }

  lemma ReadyStep(p: seq<PollFd>, channels: map<int, Channel>, i: nat)
    requires i < |p|
    requires forall k :: 0 <= k < |p| && Positive(p[k].revents) ==> p[k].fd in channels
    ensures Ready(p[..i + 1], channels) ==
            Ready(p[..i], channels) + if Positive(p[i].revents) then [channels[p[i].fd]] else []
  {
    assert p[..i + 1][..i] == p[..i];
  }

  /** The return value of poll(): how many entries have nonzero revents. */
  function Reported(p: seq<PollFd>): nat {
    if p == [] then 0
    else Reported(p[..|p| - 1]) + if p[|p| - 1].revents != NONE_EVENT then 1 else 0
  }

  lemma {:induction false} ReportedIsACount(p: seq<PollFd>)
    ensures Reported(p) == |set i | 0 <= i < |p| && p[i].revents.bits != {}|
    decreases |p|
  {
    var all := set i | 0 <= i < |p| && p[i].revents.bits != {};
    if p != [] {
      var n := |p| - 1;
      ReportedIsACount(p[..n]);
      var front := set i | 0 <= i < n && p[..n][i].revents.bits != {};
      assert forall i :: 0 <= i < n ==> p[..n][i] == p[i];
      if p[n].revents != NONE_EVENT {
        assert all == front + {n};
      } else {
        assert all == front;
      }
    }
  }

  lemma {:induction false} ReportedSplits(p: seq<PollFd>, i: nat)
    requires i <= |p|
    ensures Reported(p) == Reported(p[..i]) + Reported(p[i..])
    decreases |p| - i
  {
    if i == |p| {
      assert p[..i] == p;
    } else {
      var n := |p| - 1;
      ReportedSplits(p[..n], i);
      assert p[..n][..i] == p[..i] && p[..n][i..] == p[i..][..n - i];
      assert p[i..][|p[i..]| - 1] == p[n];
    }
  }

  lemma {:induction false} ReadyIsReported(p: seq<PollFd>, channels: map<int, Channel>)
    requires forall i :: 0 <= i < |p| && Positive(p[i].revents) ==> p[i].fd in channels
    ensures |Ready(p, channels)| <= Reported(p)
    decreases |p|
  {
    if p != [] { ReadyIsReported(p[..|p| - 1], channels); }
  }

  lemma {:induction false} NothingReported(p: seq<PollFd>)
    requires Reported(p) == 0
    ensures forall i :: 0 <= i < |p| ==> p[i].revents == NONE_EVENT
    decreases |p|
  {
    if p != [] { NothingReported(p[..|p| - 1]); }
  }

  lemma {:induction false} ReadyOfQuietTail(p: seq<PollFd>, channels: map<int, Channel>, i: nat)
    requires i <= |p|
    requires forall k :: 0 <= k < |p| && Positive(p[k].revents) ==> p[k].fd in channels
    requires forall k :: i <= k < |p| ==> p[k].revents == NONE_EVENT
    ensures Ready(p, channels) == Ready(p[..i], channels)
    decreases |p|
  {
    if i == |p| {
      assert p[..i] == p;
    } else {
      var n := |p| - 1;
      ReadyOfQuietTail(p[..n], channels, i);
      assert p[..n][..i] == p[..i];
    }
  }

  /** The early exit is sound: once as many positive entries have been seen as poll() reported, the
      rest of the vector holds none. */
  lemma EarlyExit(p: seq<PollFd>, channels: map<int, Channel>, i: nat)
    requires i <= |p|
    requires forall k :: 0 <= k < |p| && Positive(p[k].revents) ==> p[k].fd in channels
    requires |Ready(p[..i], channels)| == Reported(p)
    ensures Ready(p, channels) == Ready(p[..i], channels)
    ensures forall k :: i <= k < |p| ==> p[k].revents == NONE_EVENT
  {
    ReportedSplits(p, i);
    ReadyIsReported(p[..i], channels);
    NothingReported(p[i..]);
    forall k | i <= k < |p| ensures p[k].revents == NONE_EVENT { assert p[i..][k - i] == p[k]; }
    ReadyOfQuietTail(p, channels, i);
  }

  /** What Ready contains, given that different entries are about different channels. */
  lemma {:induction false} ReadyIsExact(p: seq<PollFd>, channels: map<int, Channel>)
    requires forall i :: 0 <= i < |p| && Positive(p[i].revents) ==> p[i].fd in channels
    requires forall i, j :: 0 <= i < j < |p| && Positive(p[i].revents) && Positive(p[j].revents) ==>
                              channels[p[i].fd] != channels[p[j].fd]
    ensures forall c :: c in Ready(p, channels) <==>
                          exists i :: 0 <= i < |p| && Positive(p[i].revents) && channels[p[i].fd] == c
    ensures Distinct(Ready(p, channels))
    decreases |p|
  {
    if p != [] {
      var n := |p| - 1;
      var front, f, r := p[..n], Ready(p[..n], channels), Ready(p, channels);
      ReadyIsExact(front, channels);
      if Positive(p[n].revents) {
        var last := channels[p[n].fd];
        forall k | 0 <= k < |front| && Positive(front[k].revents) ensures channels[front[k].fd] != last {
          assert p[k] == front[k];
        }
        assert last !in f;
        DistinctAppend(f, last);
      }
      forall c ensures c in r <==> exists i :: 0 <= i < |p| && Positive(p[i].revents) && channels[p[i].fd] == c {
        if c in f {
          var i :| 0 <= i < |front| && Positive(front[i].revents) && channels[front[i].fd] == c;
          assert p[i] == front[i];
        }
        if i :| 0 <= i < |p| && Positive(p[i].revents) && channels[p[i].fd] == c {
          if i < n { assert front[i] == p[i]; }
        }
      }
    }
  }

  /** And in what order: that of the entries, wherever in the vector those of two channels are. */
  lemma {:induction false} ReadyIsOrdered(p: seq<PollFd>, channels: map<int, Channel>, i: nat, j: nat)
    requires forall k :: 0 <= k < |p| && Positive(p[k].revents) ==> p[k].fd in channels
    requires i < j < |p| && Positive(p[i].revents) && Positive(p[j].revents)
    ensures exists x, y :: 0 <= x < y < |Ready(p, channels)| &&
                           Ready(p, channels)[x] == channels[p[i].fd] && Ready(p, channels)[y] == channels[p[j].fd]
    decreases |p|
  {
    var n := |p| - 1;
    var front := Ready(p[..n], channels);
    if j < n {
      ReadyIsOrdered(p[..n], channels, i, j);
      var x, y :| 0 <= x < y < |front| && front[x] == channels[p[i].fd] && front[y] == channels[p[j].fd];
      assert Ready(p, channels)[x] == front[x] && Ready(p, channels)[y] == front[y];
    } else {
      ReadyHas(p[..n], channels, i);
      var x :| 0 <= x < |front| && front[x] == channels[p[i].fd];
      assert Ready(p, channels)[x] == front[x] && Ready(p, channels)[|front|] == channels[p[j].fd];
    }
  }

  lemma {:induction false} ReadyHas(p: seq<PollFd>, channels: map<int, Channel>, i: nat)
    requires forall k :: 0 <= k < |p| && Positive(p[k].revents) ==> p[k].fd in channels
    requires i < |p| && Positive(p[i].revents)
    ensures exists x :: 0 <= x < |Ready(p, channels)| && Ready(p, channels)[x] == channels[p[i].fd]
    decreases |p|
  {
    var n := |p| - 1;
    var front := Ready(p[..n], channels);
    if i < n {
      ReadyHas(p[..n], channels, i);
      var x :| 0 <= x < |front| && front[x] == channels[p[i].fd];
      assert Ready(p, channels)[x] == front[x];
    } else {
      assert Ready(p, channels)[|front|] == channels[p[i].fd];
    }
  }

  class Poller {
    var pollfds: seq<PollFd>
    var channels: map<int, Channel>
    ghost var slot: map<int, nat>

    /** The vector, the map and the channels' indices agree. */
    ghost predicate Valid()
      reads this, channels.Values`index
    {
      && Bijection(pollfds, slot)
      && Indexed(slot)
    }

    /** The back-indices stored in the registered channels. */
    ghost predicate Indexed(slot: map<int, nat>)
      reads this`channels, channels.Values`index
    {
      && channels.Keys == slot.Keys
      && forall fd :: fd in channels ==> fd >= 0 && channels[fd].fd == fd && channels[fd].index == slot[fd]
    }

    ghost function Interests(): map<int, Interest>
      requires Bijection(pollfds, slot)
      reads this
    {
      Table(pollfds, slot)
    }

    lemma InterestKeys()
      requires Valid()
      ensures Interests().Keys == channels.Keys
    {
    }

    ghost predicate Holds(c: Channel)
      reads this
    {
      c.fd in channels && channels[c.fd] == c
    }

    /** What update_channel asserts of its argument: a channel with an index is registered as itself,
        one without has a descriptor nobody has registered. */
    ghost predicate Accepts(c: Channel)
      reads this, c`index
    {
      c.fd >= 0 && if c.index < 0 then c.fd !in channels else Holds(c)
    }

    constructor ()
      ensures Valid() && channels == map[] && Interests() == map[]
    {
      pollfds, channels, slot := [], map[], map[];
    }

    method UpdateChannel(c: Channel)
      requires Valid() && Accepts(c)
      modifies this, c`index
      ensures Valid() && Holds(c)
      ensures channels == old(channels)[c.fd := c]
      ensures Interests() == Updated(old(Interests()), c.fd, c.events)
    {
      hide Bijection, Table;
      if c.index < 0 {
        Add(c);
      } else {
        Replace(c);
      }
    }

    /** The branch for a new channel. */
    method Add(c: Channel)
      requires Valid() && c.fd >= 0 && c.fd !in channels
      modifies this, c`index
      ensures Valid() && channels == old(channels)[c.fd := c]
      ensures Interests() == Updated(old(Interests()), c.fd, c.events)
    {
      AppendEntry(pollfds, slot, c.fd, c.events);
      hide Bijection, Table;
      pollfds := pollfds + [PollFd(c.fd, c.events, NONE_EVENT)];
      Link(c, |pollfds| - 1);
    }

    /** The index and the map entry of a new channel. */
    method Link(c: Channel, idx: nat)
      requires Indexed(slot) && c.fd >= 0 && c.fd !in channels
      modifies this`channels, this`slot, c`index
      ensures channels == old(channels)[c.fd := c] && slot == old(slot)[c.fd := idx] && Indexed(slot)
    {
      c.index := idx;
      channels := channels[c.fd := c];
      slot := slot[c.fd := idx];
    }

    /** The branch for a registered one. */
    method Replace(c: Channel)
      requires Valid() && Holds(c)
      modifies this
      ensures Valid() && channels == old(channels)
      ensures Interests() == Updated(old(Interests()), c.fd, c.events)
    {
      var idx := c.index;
      UpdatableEntry(c);
      ReplaceEntry(pollfds, slot, c.fd, c.events);
      hide Bijection, Table;
      pollfds :=
        pollfds[idx := PollFd(if c.events == NONE_EVENT then Complement(c.fd) else c.fd, c.events, NONE_EVENT)];
    }

    /** What update_channel asserts of the entry of a registered channel. */
    lemma UpdatableEntry(c: Channel)
      requires Valid() && Holds(c)
      ensures 0 <= c.index < |pollfds| && slot[c.fd] == c.index
      ensures pollfds[c.index].fd == c.fd || pollfds[c.index].fd == Complement(c.fd)
    {
    }

    /** Swap with the last entry and pop: only the removed key changes.  The removed channel keeps its
        stale index, so it must never be updated again. */
    method RemoveChannel(c: Channel)
      requires Valid() && Holds(c) && c.events == NONE_EVENT
      requires !Interests()[c.fd].watched
      modifies this, channels.Values`index
      ensures Valid() && c.index == old(c.index) && !Accepts(c)
      ensures channels == old(channels) - {c.fd}
      ensures Interests() == old(Interests()) - {c.fd}
    {
      var idx := c.index;
      RemovableEntry(c);
      ghost var popped, slot' := SwapPop(pollfds, idx), Reslot(pollfds, slot, c.fd);
      if idx != |pollfds| - 1 {
        pollfds := SwapWithLast(pollfds, idx);
        Reindex(if pollfds[idx].fd < 0 then Complement(pollfds[idx].fd) else pollfds[idx].fd, idx);
      }
      Unlink(c, popped, slot');
    }

    /** What remove_channel asserts of the entry, and what removing it does to the table. */
    lemma RemovableEntry(c: Channel)
      requires Valid() && Holds(c) && c.events == NONE_EVENT && !Interests()[c.fd].watched
      ensures 0 <= c.index < |pollfds| && slot[c.fd] == c.index
      ensures pollfds[c.index].fd == Complement(c.fd) && pollfds[c.index].events == c.events
      ensures var last := Key(pollfds[|pollfds| - 1].fd);
              && last in channels && (last == c.fd <==> c.index == |pollfds| - 1)
              && Bijection(SwapPop(pollfds, c.index), Reslot(pollfds, slot, c.fd))
              && Table(SwapPop(pollfds, c.index), Reslot(pollfds, slot, c.fd)) == Interests() - {c.fd}
    {
      RemoveEntry(pollfds, slot, c.fd);
    }

    /** The channel whose entry has been moved learns its new index. */
    method Reindex(moved: int, idx: nat)
      requires Indexed(slot) && moved in channels
      modifies channels.Values`index, this`slot
      ensures slot == old(slot)[moved := idx] && Indexed(slot)
    {
      channels[moved].index := idx;
      slot := slot[moved := idx];
    }

    /** Erase and pop_back. */
    method Unlink(c: Channel, ghost popped: seq<PollFd>, ghost slot': map<int, nat>)
      requires Holds(c) && Indexed(slot) && slot' == slot - {c.fd}
      requires pollfds != [] && popped == pollfds[..|pollfds| - 1] && Bijection(popped, slot')
      modifies this
      ensures channels == old(channels) - {c.fd} && slot == slot' && pollfds == popped && Valid()
    {
      channels, slot := channels - {c.fd}, slot - {c.fd};
      pollfds := pollfds[..|pollfds| - 1];
    }

    /** The contract of poll(): it ignores complemented descriptors and returns how many entries it
        gave nonzero revents (zero on a time-out, negative on an error). */
    predicate PollReturns(ret: int, revents: seq<Mask>)
      reads this
    {
      ret > 0 ==>
        && |revents| == |pollfds|
        && (forall i :: 0 <= i < |pollfds| && pollfds[i].fd < 0 ==> revents[i] == NONE_EVENT)
        && ret == Reported(Filled(pollfds, revents))
    }

    /** The active channels hold the revents of their entries. */
    ghost predicate Stored(active: seq<Channel>)
      reads this, active`revents
    {
      forall c :: c in active ==>
        Holds(c) && c.fd in slot && slot[c.fd] < |pollfds| && c.revents == pollfds[slot[c.fd]].revents
    }

    /** Appends exactly the channels whose entries have positive revents, in vector order, with their
        revents stored; it stops as soon as it has seen as many as poll() reported. */
    method FillActiveChannels(reported: int) returns (active: seq<Channel>)
      requires Valid() && reported == Reported(pollfds) > 0
      requires forall i :: 0 <= i < |pollfds| && pollfds[i].fd < 0 ==> pollfds[i].revents == NONE_EVENT
      modifies channels.Values`revents
      ensures Valid() && Stored(active)
      ensures forall i :: 0 <= i < |pollfds| && Positive(pollfds[i].revents) ==> pollfds[i].fd in channels
      ensures active == Ready(pollfds, channels)
    {
      hide Bijection, Table;
      active := [];
      var left := reported;
      var i := 0;
      EntriesAreChannels();
      while i < |pollfds|
        invariant 0 <= i <= |pollfds| && Valid() && Stored(active)
        invariant active == Ready(pollfds[..i], channels) && left == reported - |active|
      {
        ReadyStep(pollfds, channels, i);
        var pfd := pollfds[i];
        if Positive(pfd.revents) {
          left := left - 1;
          active := Activate(i, active);
        }
        i := i + 1;
        if left == 0 {
          EarlyExit(pollfds, channels, i);
          return;
        }
      }
      assert pollfds[..i] == pollfds;
    }

    /** Stores one entry's revents in its channel and appends the channel. */
    method Activate(i: nat, before: seq<Channel>) returns (active: seq<Channel>)
      requires Valid() && Stored(before) && i < |pollfds|
      requires pollfds[i].fd in channels && slot[pollfds[i].fd] == i
      modifies channels.Values`revents
      ensures Valid() && active == before + [channels[pollfds[i].fd]] && Stored(active)
    {
      var channel := channels[pollfds[i].fd];
      assert channel.fd == pollfds[i].fd;
      channel.revents := pollfds[i].revents;
      active := before + [channel];
    }

    lemma EntriesAreChannels()
      requires Valid()
      requires forall i :: 0 <= i < |pollfds| && pollfds[i].fd < 0 ==> pollfds[i].revents == NONE_EVENT
      ensures forall i :: 0 <= i < |pollfds| && Positive(pollfds[i].revents) ==>
                            pollfds[i].fd in channels && slot[pollfds[i].fd] == i
    {
    }

    /** Poller::poll: exactly the watched channels with positive revents, each once, in vector order;
        registrations are not affected. */
    method Poll(ret: int, revents: seq<Mask>) returns (active: seq<Channel>)
      requires Valid() && PollReturns(ret, revents)
      modifies this`pollfds, channels.Values`revents
      ensures Valid() && Interests() == old(Interests())
      ensures ret <= 0 ==> active == []
      ensures Distinct(active)
      ensures forall c :: c in active ==> Holds(c) && Interests()[c.fd].watched && Positive(c.revents)
      ensures ret > 0 ==> Stored(active) && pollfds == Filled(old(pollfds), revents)
      ensures ret > 0 ==> forall fd :: fd in channels ==>
                (channels[fd] in active <==> Positive(revents[slot[fd]]))
    {
      if ret > 0 {
        FilledKeepsTable(pollfds, revents, slot);
        pollfds := Filled(pollfds, revents);
        active := FillExactly(ret);
      } else {
        active := [];
      }
    }

    /** fill_active_channels, and what it amounts to. */
    method FillExactly(reported: int) returns (active: seq<Channel>)
      requires Valid() && reported == Reported(pollfds) > 0
      requires forall i :: 0 <= i < |pollfds| && pollfds[i].fd < 0 ==> pollfds[i].revents == NONE_EVENT
      modifies channels.Values`revents
      ensures Valid() && Stored(active) && Distinct(active)
      ensures forall c <- active :: Holds(c) && Interests()[c.fd].watched && Positive(c.revents)
      ensures forall fd <- channels :: channels[fd] in active <==> Positive(pollfds[slot[fd]].revents)
    {
      active := FillActiveChannels(reported);
      ActiveIsExact(active);
      hide Bijection, Table;
    }

    lemma ActiveIsExact(active: seq<Channel>)
      requires Valid()
      requires forall i :: 0 <= i < |pollfds| && pollfds[i].fd < 0 ==> pollfds[i].revents == NONE_EVENT
      requires forall i :: 0 <= i < |pollfds| && Positive(pollfds[i].revents) ==> pollfds[i].fd in channels
      requires active == Ready(pollfds, channels)
      ensures Distinct(active)
      ensures forall c :: c in active ==> Holds(c) && Interests()[c.fd].watched && Positive(pollfds[slot[c.fd]].revents)
      ensures forall fd :: fd in channels ==> (channels[fd] in active <==> Positive(pollfds[slot[fd]].revents))
    {
      EntriesAreChannels();
      ReadyIsExact(pollfds, channels);
      forall c | c in active
        ensures Holds(c) && Interests()[c.fd].watched && Positive(pollfds[slot[c.fd]].revents)
      {
        var i :| 0 <= i < |pollfds| && Positive(pollfds[i].revents) && channels[pollfds[i].fd] == c;
      }
      forall fd | fd in channels ensures channels[fd] in active <==> Positive(pollfds[slot[fd]].revents) {
        if Positive(pollfds[slot[fd]].revents) {
          assert channels[pollfds[slot[fd]].fd] == channels[fd];
        }
      }
    }
  }

  lemma FilledKeepsTable(p: seq<PollFd>, revents: seq<Mask>, slot: map<int, nat>)
    requires Bijection(p, slot) && |revents| == |p|
    ensures Bijection(Filled(p, revents), slot) && Table(Filled(p, revents), slot) == Table(p, slot)
  {
    assert Bijection(Filled(p, revents), slot);
    SameTable(Table(Filled(p, revents), slot), Table(p, slot));
  }

  /** The vector after poll() has written the revents. */
  function Filled(p: seq<PollFd>, revents: seq<Mask>): seq<PollFd>
    requires |p| == |revents|
  {
    seq(|p|, i requires 0 <= i < |p| => p[i].(revents := revents[i]))
  }
}
