/** std::set of (timestamp, second) pairs, as a strictly increasing sequence. */
module TimerSets {

  datatype Entry = Entry(when: int, id: int)

  predicate Less(a: Entry, b: Entry) {
    a.when < b.when || (a.when == b.when && a.id < b.id)
  }

  ghost predicate Sorted(s: seq<Entry>) {
    forall i, j :: 0 <= i < j < |s| ==> Less(s[i], s[j])
  }

  function Insert(s: seq<Entry>, e: Entry): seq<Entry> {
    if s == [] || Less(e, s[0]) then [e] + s
    else if s[0] == e then s
    else [s[0]] + Insert(s[1..], e)
  }

  function Erase(s: seq<Entry>, e: Entry): seq<Entry> {
    if s == [] then []
    else if s[0] == e then s[1..]
    else [s[0]] + Erase(s[1..], e)
  }

  lemma PrependIsSorted(e: Entry, s: seq<Entry>)
    requires Sorted(s) && forall x :: x in s ==> Less(e, x)
    ensures Sorted([e] + s)
  {
  }

  lemma HeadIsLess(s: seq<Entry>)
    requires Sorted(s) && s != []
    ensures Sorted(s[1..]) && forall x :: x in s[1..] ==> Less(s[0], x)
    ensures s == [s[0]] + s[1..]
  {
  }

  lemma {:induction false} InsertIsSorted(s: seq<Entry>, e: Entry)
    requires Sorted(s)
    ensures Sorted(Insert(s, e))
    ensures forall x :: x in Insert(s, e) <==> x in s || x == e
    ensures Insert(s, e) != [] && Insert(s, e)[0] == if s == [] || Less(e, s[0]) then e else s[0]
  {
    if s == [] {
    } else {
      HeadIsLess(s);
      if Less(e, s[0]) {
        PrependIsSorted(e, s);
      } else if s[0] != e {
        InsertIsSorted(s[1..], e);
        PrependIsSorted(s[0], Insert(s[1..], e));
      }
    }
  }

  lemma {:induction false} InsertCounts(s: seq<Entry>, e: Entry)
    requires Sorted(s) && e !in s
    ensures multiset(Insert(s, e)) == multiset(s) + multiset{e}
  {
    if s != [] {
      HeadIsLess(s);
      assert multiset(s) == multiset{s[0]} + multiset(s[1..]);
      if !Less(e, s[0]) {
        InsertCounts(s[1..], e);
      }
    }
  }

  lemma {:induction false} EraseIsSorted(s: seq<Entry>, e: Entry)
    requires Sorted(s)
    ensures Sorted(Erase(s, e))
    ensures forall x :: x in Erase(s, e) <==> x in s && x != e
  {
    if s != [] {
      HeadIsLess(s);
      if s[0] != e {
        EraseIsSorted(s[1..], e);
        PrependIsSorted(s[0], Erase(s[1..], e));
      }
    }
  }

  /** The first entry is the earliest. */
  lemma HeadIsEarliest(s: seq<Entry>, e: Entry)
    requires Sorted(s) && e in s
    ensures s[0].when <= e.when
  {
    var i :| 0 <= i < |s| && s[i] == e;
    if i > 0 { assert Less(s[0], s[i]); }
  }
}
