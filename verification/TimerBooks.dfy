/** Where every timer ever added is, and the steps that move one.  This is the specification that
    TimerQueue's methods are proved against. */
module TimerBooks {
  import opened TimerSets

  datatype Book = Book(
    added: set<Entry>,               // history: every timer ever added
    queued: seq<Entry>,              // in the event loop's functor queue, on its way to timer_list_
    list: seq<Entry>,                // timer_list_
    batch: seq<Entry>,               // the rest of the expired batch
    fired: seq<Entry>,               // history: timers whose callback has been called, in order
    at: seq<int>,                    // history: when
    cutoff: int,                     // the time get_expired was given for this batch
    met: set<(Entry, Entry)>)        // history: timers that were in timer_list_ together

  const EMPTY := Book({}, [], [], [], [], [], 0, {})

  function Count(b: Book, e: Entry): nat {
    multiset(b.queued)[e] + multiset(b.list)[e] + multiset(b.batch)[e] + multiset(b.fired)[e]
  }

  /** Every added timer is in exactly one place, once, and nothing else is anywhere. */
  ghost predicate Conserved(b: Book) {
    forall e :: Count(b, e) == if e in b.added then 1 else 0
  }

  /** No callback is called before its deadline. */
  ghost predicate NeverEarly(b: Book) {
    && |b.at| == |b.fired|
    && (forall i :: 0 <= i < |b.fired| ==> b.fired[i].when <= b.at[i])
    && (forall e :: e in b.batch ==> e.when <= b.cutoff)
  }

  /** The order in which timers leave the list is the order in which they run. */
  function Line(b: Book): seq<Entry> {
    b.fired + b.batch
  }

  ghost predicate Before(line: seq<Entry>, a: Entry, c: Entry) {
    forall j :: 0 <= j < |line| && line[j] == c ==> a in line[..j]
  }

  /** Of two timers that were in the list together the one with the earlier deadline runs first. */
  ghost predicate EarlierFirst(b: Book) {
    && (forall a, c :: a in b.list && c in b.list && a != c ==> (a, c) in b.met)
    && (forall p :: p in b.met ==> (p.0 in b.list || p.0 in Line(b)) && (p.1 in b.list || p.1 in Line(b)))
    && (forall p :: p in b.met && p.0.when < p.1.when ==> Before(Line(b), p.0, p.1))
  }

  ghost predicate Good(b: Book) {
    Sorted(b.list) && Conserved(b) && NeverEarly(b) && EarlierFirst(b)
  }

  // The steps.

  function Enqueue(b: Book, e: Entry): Book {
    b.(added := b.added + {e}, queued := b.queued + [e])
  }

  function Enlist(b: Book, e: Entry): Book {
    b.(list := Insert(b.list, e),
       met := b.met + (set x | x in b.list :: (x, e)) + (set x | x in b.list :: (e, x)))
  }

  /** add_timer_in_loop called directly, for a new timer. */
  function AddDirect(b: Book, e: Entry): Book {
    Enlist(b.(added := b.added + {e}), e)
  }

  /** add_timer_in_loop run from the functor queue. */
  function AddQueued(b: Book): Book
    requires b.queued != []
  {
    Enlist(b.(queued := b.queued[1..]), b.queued[0])
  }

  function Expire(b: Book, now: int): Book
    requires b.list != []
  {
    b.(list := b.list[1..], batch := b.batch + [b.list[0]], cutoff := now)
  }

  function RunFirst(b: Book, now: int): Book
    requires b.batch != []
  {
    b.(batch := b.batch[1..], fired := b.fired + [b.batch[0]], at := b.at + [now])
  }

  /** A new timer is added, once, to the list or to the queue. */
  lemma AddingAddsOne(b: Book, e: Entry)
    requires Good(b) && e !in b.added
    ensures AddDirect(b, e).added == b.added + {e} == Enqueue(b, e).added
    ensures multiset(AddDirect(b, e).list) == multiset(b.list) + multiset{e}
    ensures Enqueue(b, e).queued == b.queued + [e]
  {
    Exclusive(b, e);
    InsertCounts(b.list, e);
  }

  /** The first queued timer, and no other, moves to the list. */
  lemma QueuedMovesOne(b: Book)
    requires Good(b) && b.queued != []
    ensures AddQueued(b).added == b.added && b.queued == [b.queued[0]] + AddQueued(b).queued
    ensures multiset(AddQueued(b).list) == multiset(b.list) + multiset{b.queued[0]}
  {
    Exclusive(b, b.queued[0]);
    InsertCounts(b.list, b.queued[0]);
  }

  /** Timers once in the list together stay known to have been. */
  lemma StepsKeepMet(b: Book, e: Entry, now: int)
    ensures b.met <= Enqueue(b, e).met && b.met <= AddDirect(b, e).met
    ensures b.queued != [] ==> b.met <= AddQueued(b).met
    ensures b.list != [] ==> b.met <= Expire(b, now).met
    ensures b.batch != [] ==> b.met <= RunFirst(b, now).met
  {
  }

  lemma Exclusive(b: Book, e: Entry)
    requires Conserved(b)
    ensures e in b.list ==> e in b.added && e !in b.queued && e !in Line(b)
    ensures e in b.queued ==> e in b.added && e !in b.list && e !in Line(b)
    ensures e !in b.added ==> e !in b.list && e !in b.queued && e !in Line(b)
  {
    assert Count(b, e) == if e in b.added then 1 else 0;
    assert multiset(Line(b))[e] == multiset(b.fired)[e] + multiset(b.batch)[e];
    assert e in Line(b) <==> e in multiset(Line(b));
  }

  lemma EnqueueKeepsGood(b: Book, e: Entry)
    requires Good(b) && e !in b.added
    ensures Good(Enqueue(b, e))
  {
    var b' := Enqueue(b, e);
    forall x ensures Count(b', x) == if x in b'.added then 1 else 0 {
      assert Count(b, x) == if x in b.added then 1 else 0;
      assert multiset(b'.queued)[x] == multiset(b.queued)[x] + multiset{e}[x];
    }
    assert Line(b') == Line(b);
  }

  /** Enlist, for a timer that is nowhere. */
  lemma EnlistKeepsOrder(b: Book, e: Entry)
    requires Sorted(b.list) && EarlierFirst(b) && e !in b.list && e !in Line(b)
    requires forall x :: x in b.list ==> x !in Line(b)
    ensures Sorted(Enlist(b, e).list) && EarlierFirst(Enlist(b, e))
  {
    InsertIsSorted(b.list, e);
    assert Line(Enlist(b, e)) == Line(b);
  }

  lemma AddDirectKeepsGood(b: Book, e: Entry)
    requires Good(b) && e !in b.added
    ensures Good(AddDirect(b, e))
  {
    var b' := AddDirect(b, e);
    Exclusive(b, e);
    forall x | x in b.list ensures x !in Line(b) { Exclusive(b, x); }
    InsertCounts(b.list, e);
    forall x ensures Count(b', x) == if x in b'.added then 1 else 0 {
      assert Count(b, x) == if x in b.added then 1 else 0;
    }
    assert Line(b.(added := b.added + {e})) == Line(b);
    EnlistKeepsOrder(b.(added := b.added + {e}), e);
  }

  lemma AddQueuedKeepsGood(b: Book)
    requires Good(b) && b.queued != []
    ensures Good(AddQueued(b))
  {
    var e, b' := b.queued[0], AddQueued(b);
    Exclusive(b, e);
    forall x | x in b.list ensures x !in Line(b) { Exclusive(b, x); }
    InsertCounts(b.list, e);
    assert b.queued == [e] + b.queued[1..];
    forall x ensures Count(b', x) == if x in b'.added then 1 else 0 {
      assert Count(b, x) == if x in b.added then 1 else 0;
      assert multiset(b.queued)[x] == multiset{e}[x] + multiset(b.queued[1..])[x];
    }
    assert Line(b.(queued := b.queued[1..])) == Line(b);
    EnlistKeepsOrder(b.(queued := b.queued[1..]), e);
  }

  lemma ExpireKeepsOrder(b: Book, now: int, a: Entry, c: Entry)
    requires Good(b) && b.list != [] && (a, c) in b.met && a.when < c.when
    ensures Before(Line(Expire(b, now)), a, c)
  {
    var h, line := b.list[0], Line(b);
    assert Line(Expire(b, now)) == line + [h];
    assert Before(line, a, c);
    if a in b.list { HeadIsEarliest(b.list, a); }
    Exclusive(b, h);
    forall j | 0 <= j < |line + [h]| && (line + [h])[j] == c ensures a in (line + [h])[..j] {
      if j < |line| {
        assert line[j] == c && (line + [h])[..j] == line[..j];
      } else {
        assert (line + [h])[..j] == line;
      }
    }
  }

  lemma ExpireKeepsConserved(b: Book, now: int)
    requires Conserved(b) && b.list != []
    ensures Conserved(Expire(b, now))
  {
    var h, b' := b.list[0], Expire(b, now);
    assert b.list == [h] + b.list[1..];
    assert multiset(b.list) == multiset{h} + multiset(b.list[1..]);
    forall x
      ensures Count(b', x) == if x in b'.added then 1 else 0
    {
      assert Count(b, x) == if x in b.added then 1 else 0;
    }
  }

  lemma ExpireKeepsGood(b: Book, now: int)
    requires Good(b) && b.list != [] && b.list[0].when <= now
    requires b.batch == [] || b.cutoff == now
    ensures Good(Expire(b, now))
  {
    var h, b' := b.list[0], Expire(b, now);
    HeadIsLess(b.list);
    ExpireKeepsConserved(b, now);
    hide Conserved;
    assert Line(b') == Line(b) + [h];
    forall p | p in b'.met && p.0.when < p.1.when
      ensures Before(Line(b'), p.0, p.1)
    {
      ExpireKeepsOrder(b, now, p.0, p.1);
    }
    forall a | a in b.list && a != h
      ensures a in b'.list
    {
    }
  }

  lemma RunFirstKeepsGood(b: Book, now: int)
    requires Good(b) && b.batch != [] && b.cutoff <= now
    ensures Good(RunFirst(b, now))
  {
    var h, b' := b.batch[0], RunFirst(b, now);
    assert b.batch == [h] + b.batch[1..];
    forall x ensures Count(b', x) == if x in b'.added then 1 else 0 {
      assert Count(b, x) == if x in b.added then 1 else 0;
      assert multiset(b.batch)[x] == multiset{h}[x] + multiset(b.batch[1..])[x];
    }
    assert Line(b') == Line(b);
  }

  /** What the conditions mean for two timers that were in the list together: when the later one's
      callback has been called, the earlier one's had been before. */
  lemma EarlierDeadlineRunsFirst(b: Book, a: Entry, c: Entry, j: nat)
    requires Good(b) && (a, c) in b.met && a.when < c.when && j < |b.fired| && b.fired[j] == c
    ensures exists i :: 0 <= i < j && b.fired[i] == a
  {
    assert Line(b)[j] == c && Line(b)[..j] == b.fired[..j];
    assert Before(Line(b), a, c);
    var i :| 0 <= i < j && b.fired[..j][i] == a;
    assert b.fired[i] == a;
  }

  /** A timer's callback is called at most once, not before its deadline, and only if it was added. */
  lemma FiresAtMostOnce(b: Book, i: nat, j: nat)
    requires Good(b) && i < |b.fired| && j < |b.fired| && b.fired[i] == b.fired[j]
    ensures i == j && b.fired[i] in b.added && b.fired[i].when <= b.at[i]
  {
    var e := b.fired[i];
    assert Count(b, e) == if e in b.added then 1 else 0;
    assert e in multiset(b.fired);
    if i < j { TwiceCounts(b.fired, i, j); }
    if j < i { TwiceCounts(b.fired, j, i); }
  }

  lemma TwiceCounts(s: seq<Entry>, i: nat, j: nat)
    requires i < j < |s| && s[i] == s[j]
    ensures multiset(s)[s[i]] >= 2
  {
    var a, b := s[..j], s[j..];
    assert s == a + b;
    assert a[i] == s[i] && b[0] == s[i];
    assert s[i] in multiset(a) && s[i] in multiset(b);
  }
}
