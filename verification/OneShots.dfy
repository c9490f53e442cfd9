/** A one-shot timer whose expirations stay until they are read: what the simulated timerfd is to its
    owner. */
module OneShots {
  import opened Options

  datatype OneShot = OneShot(armed: Option<int>, ticks: nat)

  datatype Event = Arm(when: int) | Fire(at: int) | Consume

  const IDLE := OneShot(None, 0)

  /** It fires only while armed, and not before its expiration. */
  predicate Legal(v: OneShot, e: Event) {
    match e
    case Arm(_) => true
    case Fire(at) => v.armed.Some? && v.armed.value <= at
    case Consume => v.ticks > 0
  }

  function Do(v: OneShot, e: Event): OneShot
    requires Legal(v, e)
  {
    match e
    case Arm(when) => v.(armed := Some(when))
    case Fire(_) => OneShot(None, v.ticks + 1)
    case Consume => v.(ticks := v.ticks - 1)
  }

  function Replay(v: OneShot, es: seq<Event>): Option<OneShot>
    decreases |es|
  {
    if es == [] then Some(v)
    else if Legal(v, es[0]) then Replay(Do(v, es[0]), es[1..])
    else None
  }

  /** A history of a timer can be taken up where it has got to. */
  lemma {:induction false} ReplayConcat(v: OneShot, es: seq<Event>, more: seq<Event>)
    requires Replay(v, es).Some?
    ensures Replay(v, es + more) == Replay(Replay(v, es).value, more)
    decreases |es|
  {
    if es == [] {
      assert es + more == more;
    } else {
      assert (es + more)[1..] == es[1..] + more;
      ReplayConcat(Do(v, es[0]), es[1..], more);
    }
  }

  // What a history comes to, from the events alone.

  function Fires(es: seq<Event>): nat {
    if es == [] then 0 else Fires(es[..|es| - 1]) + if es[|es| - 1].Fire? then 1 else 0
  }

  function Consumes(es: seq<Event>): nat {
    if es == [] then 0 else Consumes(es[..|es| - 1]) + if es[|es| - 1].Consume? then 1 else 0
  }

  function Arms(es: seq<Event>): seq<int> {
    if es == [] then [] else Arms(es[..|es| - 1]) + if es[|es| - 1].Arm? then [es[|es| - 1].when] else []
  }

  /** The expiration of the latest arming, unless it has fired since. */
  function Outstanding(es: seq<Event>): Option<int> {
    if es == [] then None
    else
      match es[|es| - 1]
      case Arm(when) => Some(when)
      case Fire(_) => None
      case Consume => Outstanding(es[..|es| - 1])
  }

  /** In a history each arming fires at most once and not before its expiration, each firing leaves one
      tick, and each reading takes one. */
  lemma {:induction false} HistoryComesTo(es: seq<Event>)
    requires Replay(IDLE, es).Some?
    ensures Replay(IDLE, es).value.armed == Outstanding(es)
    ensures Replay(IDLE, es).value.ticks == Fires(es) - Consumes(es)
    ensures Fires(es) + (if Outstanding(es).Some? then 1 else 0) <= |Arms(es)|
    ensures es != [] && es[|es| - 1].Fire? ==>
              Outstanding(es[..|es| - 1]).Some? && Outstanding(es[..|es| - 1]).value <= es[|es| - 1].at
  {
    if es != [] {
      var rest, e := es[..|es| - 1], es[|es| - 1];
      assert es == rest + [e];
      PrefixIsHistory(IDLE, rest, [e]);
      HistoryComesTo(rest);
      assert [e][1..] == [];
      ReplayConcat(IDLE, rest, [e]);
    }
  }

  lemma {:induction false} PrefixIsHistory(v: OneShot, es: seq<Event>, more: seq<Event>)
    requires Replay(v, es + more).Some?
    ensures Replay(v, es).Some?
    decreases |es|
  {
    if es != [] {
      assert (es + more)[0] == es[0] && (es + more)[1..] == es[1..] + more;
      PrefixIsHistory(Do(v, es[0]), es[1..], more);
    }
  }

  lemma {:induction false} CountsOfConcat(es: seq<Event>, more: seq<Event>)
    ensures Arms(es + more) == Arms(es) + Arms(more)
    ensures Consumes(es + more) == Consumes(es) + Consumes(more)
    decreases |more|
  {
    if more == [] {
      assert es + more == es;
    } else {
      assert (es + more)[..|es + more| - 1] == es + more[..|more| - 1];
      CountsOfConcat(es, more[..|more| - 1]);
    }
  }
}
