/**
  * The compressed tables of TypedConfigurations, one value per level that differs from Global's, and
  * exactly when looking one up gives back what the configuration list says.
  */
module TypedTables {
  import opened Options
  import opened ConfigurationTables
  import Decimals

  // ------------------------------------------------------------------ reading values

  predicate IsSpace(c: char) {
    c == ' ' || '\t' <= c <= '\r'
  }

  function TrimRight(s: string): string {
    if s != "" && IsSpace(s[|s| - 1]) then TrimRight(s[..|s| - 1]) else s
  }

  function TrimLeft(s: string): string {
    if s != "" && IsSpace(s[0]) then TrimLeft(s[1..]) else s
  }

  function Trim(s: string): string {
    TrimLeft(TrimRight(s))
  }

  function GetBool(value: string): bool {
    Trim(value) in {"TRUE", "true", "1"}
  }

  /** The decimal number, or zero for anything that is not one. */
  function GetULong(value: string): int {
    var s := Trim(value);
    if s != "" && forall i :: 0 <= i < |s| ==> '0' <= s[i] <= '9' then Decimals.ValueOf(s) else 0
  }

  /** The six white-space characters of the C locale. */
  lemma SpacesAre(c: char)
    ensures IsSpace(c) <==> c as int in {9, 10, 11, 12, 13, 32}
  {
  }

  predicate Blank(s: string) {
    forall c <- s :: IsSpace(c)
  }

  /** No white space at either end. */
  predicate Bare(s: string) {
    s != "" ==> !IsSpace(s[0]) && !IsSpace(s[|s| - 1])
  }

  lemma {:induction false} LeftTrimmed(left: string, w: string)
    requires Bare(w) && Blank(left)
    ensures TrimLeft(left + w) == w
  {
    if left == "" {
      assert left + w == w;
    } else {
      assert left[0] in left && (left + w)[1..] == left[1..] + w;
      LeftTrimmed(left[1..], w);
    }
  }

  lemma {:induction false} BlankRightTrimmed(s: string)
    requires Blank(s)
    ensures TrimRight(s) == ""
  {
    if s != "" {
      assert s[|s| - 1] in s;
      BlankRightTrimmed(s[..|s| - 1]);
    }
  }

  /** Trimming takes the white space off both ends and nothing else. */
  lemma Trimmed(left: string, w: string, right: string)
    requires Blank(left) && Bare(w) && Blank(right)
    ensures Trim(left + w + right) == w
  {
    if w == "" {
      assert Blank(left + w + right);
      BlankRightTrimmed(left + w + right);
    } else {
      InnerRightTrimmed(left + w, right);
      LeftTrimmed(left, w);
    }
  }

  lemma {:induction false} InnerRightTrimmed(s: string, right: string)
    requires s != "" && !IsSpace(s[|s| - 1]) && Blank(right)
    ensures TrimRight(s + right) == s
    decreases |right|
  {
    if right == "" {
      assert s + right == s;
    } else {
      var n := |right| - 1;
      assert right[n] in right && (s + right)[|s| + n] == right[n];
      assert (s + right)[..|s| + n] == s + right[..n];
      InnerRightTrimmed(s, right[..n]);
    }
  }

  /** A flag is on for three words, whatever white space is around them. */
  lemma FlagWords(left: string, w: string, right: string)
    requires Blank(left) && Bare(w) && Blank(right)
    ensures GetBool(left + w + right) <==> w == "TRUE" || w == "true" || w == "1"
  {
    Trimmed(left, w, right);
  }

  /** A number is read from its decimal form; anything with another character in it, or nothing, is zero. */
  lemma NumbersRead(left: string, n: nat, w: string, right: string)
    requires Blank(left) && Bare(w) && Blank(right)
    ensures GetULong(left + Decimals.Digits(n) + right) == n
    ensures w == "" || (exists c <- w :: c < '0' || '9' < c) ==> GetULong(left + w + right) == 0
  {
    var digits := Decimals.Digits(n);
    Decimals.DigitsAreShort(n);
    Decimals.DigitsDenote(n);
    assert digits[0] in digits && digits[|digits| - 1] in digits;
    Trimmed(left, digits, right);
    Trimmed(left, w, right);
    assert forall i :: 0 <= i < |digits| ==> digits[i] in digits;
  }

  /** The width of the subsecond part, three unless it is between one and six. */
  function Precision(value: string): int {
    var width := GetULong(value);
    if 1 <= width <= 6 then width else 3
  }

  lemma PrecisionsRead(left: string, n: nat, right: string)
    requires Blank(left) && Blank(right)
    ensures Precision(left + Decimals.Digits(n) + right) == if n == 0 || n > 6 then 3 else n
  {
    NumbersRead(left, n, "", right);
  }

  // ------------------------------------------------------------------ tables

  /** setValue: the first value goes to Global; after that, only what differs from Global's is kept. */
  function Stored<T(==)>(m: map<Level, T>, level: Level, value: T): map<Level, T> {
    if |m| == 0 then map[GLOBAL := value]
    else if GLOBAL in m && m[GLOBAL] == value then m
    else m[level := value]
  }

  /** unsafeGetConfigByVal: the level's own value, else Global's, else a default-constructed one. */
  function Lookup<T>(m: map<Level, T>, level: Level, none: T): T {
    if level in m then m[level] else if GLOBAL in m then m[GLOBAL] else none
  }

  /** The table that build makes for one kind of configuration. */
  function Built<T(==)>(es: seq<Entry>, kind: Kind, parse: string -> T): map<Level, T> {
    if es == [] then map[] else
      var e := es[|es| - 1];
      var m := Built(es[..|es| - 1], kind, parse);
      if e.kind == kind then Stored(m, e.level, parse(e.value)) else m
  }

  /**
    * What a lookup returns after setValue: the value at its level, unless the level has one of its own
    * and the new one is Global's, which is dropped; at Global it reaches every level without one of its
    * own; and no other lookup changes, except that the first value of all goes to every level.
    */
  lemma StoredLookup<T>(m: map<Level, T>, level: Level, value: T, l: Level, none: T)
    ensures Lookup(Stored(m, level, value), level, none) != value <==>
            GLOBAL in m && m[GLOBAL] == value && level in m && m[level] != value
    ensures level == GLOBAL && l !in m ==> Lookup(Stored(m, level, value), l, none) == value
    ensures l != level && |m| > 0 && (level != GLOBAL || l in m) ==>
              Lookup(Stored(m, level, value), l, none) == Lookup(m, l, none)
    ensures |m| == 0 ==> Lookup(Stored(m, level, value), l, none) == value
  {
  }

  /** The table for a kind whose entries all go to Global. */
  function BuiltGlobally<T(==)>(es: seq<Entry>, kind: Kind, parse: string -> T): map<Level, T> {
    if es == [] then map[] else
      var e := es[|es| - 1];
      var m := BuiltGlobally(es[..|es| - 1], kind, parse);
      if e.kind == kind then Stored(m, GLOBAL, parse(e.value)) else m
  }

  /** For such a kind the last entry in the list decides, whatever its level, and for every level. */
  lemma {:induction false} LastDecides<T>(es: seq<Entry>, kind: Kind, parse: string -> T, i: nat, l: Level, none: T)
    requires i < |es| && es[i].kind == kind && forall j :: i < j < |es| ==> es[j].kind != kind
    ensures Lookup(BuiltGlobally(es, kind, parse), l, none) == parse(es[i].value)
  {
    var n := |es| - 1;
    if i < n {
      LastDecides(es[..n], kind, parse, i, l, none);
    } else {
      OnlyGlobal(es[..n], kind, parse);
    }
  }

  lemma {:induction false} OnlyGlobal<T>(es: seq<Entry>, kind: Kind, parse: string -> T)
    ensures forall l <- BuiltGlobally(es, kind, parse) :: l == GLOBAL
  {
    if es != [] {
      OnlyGlobal(es[..|es| - 1], kind, parse);
    }
  }

  // ------------------------------------------------------------------ agreement

  /** Every entry of this kind is what a lookup of its level returns. */
  ghost predicate Agrees<T>(es: seq<Entry>, kind: Kind, parse: string -> T, m: map<Level, T>, none: T) {
    forall i :: 0 <= i < |es| && es[i].kind == kind ==> Lookup(m, es[i].level, none) == parse(es[i].value)
  }

  /** Global's entry, if there is one, says what the first entry of its kind says. */
  ghost predicate GlobalIsFirst<T>(es: seq<Entry>, kind: Kind, parse: string -> T) {
    forall i, f: nat :: 0 <= i < |es| && Has(es[i], GLOBAL, kind) && First(es, kind, f)
      ==> parse(es[i].value) == parse(es[f].value)
  }

  lemma {:induction false} NothingBuilt<T>(es: seq<Entry>, kind: Kind, parse: string -> T)
    requires forall i :: 0 <= i < |es| ==> es[i].kind != kind
    ensures |Built(es, kind, parse)| == 0
  {
    if es != [] {
      NothingBuilt(es[..|es| - 1], kind, parse);
    }
  }

  /** What the table's keys are, and what it holds for Global. */
  ghost predicate Shape<T>(es: seq<Entry>, kind: Kind, parse: string -> T, f: nat, m: map<Level, T>)
    requires f < |es|
  {
    && GLOBAL in m
    && (forall i :: 0 <= i < |es| && Has(es[i], GLOBAL, kind) ==> m[GLOBAL] == parse(es[i].value))
    && ((forall i :: 0 <= i < |es| ==> !Has(es[i], GLOBAL, kind)) ==> m[GLOBAL] == parse(es[f].value))
    && (forall l <- m :: l == GLOBAL || exists i :: f < i < |es| && Has(es[i], l, kind))
  }

  lemma {:induction false} BuiltShape<T>(es: seq<Entry>, kind: Kind, parse: string -> T, f: nat)
    requires UniqueKeys(es) && First(es, kind, f)
    ensures Shape(es, kind, parse, f, Built(es, kind, parse))
  {
    var n := |es| - 1;
    var rest, e := es[..n], es[n];
    if n == f {
      NothingBuilt(rest, kind, parse);
    } else {
      BuiltShape(rest, kind, parse, f);
      ShapeStep(es, kind, parse, f, Built(rest, kind, parse));
    }
  }

  lemma ShapeStep<T>(es: seq<Entry>, kind: Kind, parse: string -> T, f: nat, m: map<Level, T>)
    requires f < |es| - 1 && UniqueKeys(es) && First(es, kind, f)
    requires Shape(es[..|es| - 1], kind, parse, f, m)
    ensures var e := es[|es| - 1];
            Shape(es, kind, parse, f, if e.kind == kind then Stored(m, e.level, parse(e.value)) else m)
  {
  }

  /** The table holds exceptions only. */
  ghost predicate Compressed<T>(m: map<Level, T>) {
    GLOBAL in m && forall l <- m :: l != GLOBAL ==> m[l] != m[GLOBAL]
  }

  lemma {:induction false} BuiltAgrees<T>(es: seq<Entry>, kind: Kind, parse: string -> T, f: nat, none: T)
    requires UniqueKeys(es) && First(es, kind, f) && GlobalIsFirst(es, kind, parse)
    ensures Agrees(es, kind, parse, Built(es, kind, parse), none)
    ensures Compressed(Built(es, kind, parse))
  {
    var n := |es| - 1;
    var rest, e := es[..n], es[n];
    if n == f {
      NothingBuilt(rest, kind, parse);
    } else {
      BuiltAgrees(rest, kind, parse, f, none);
      BuiltShape(rest, kind, parse, f);
      BuiltShape(es, kind, parse, f);
      AgreesStep(es, kind, parse, f, Built(rest, kind, parse), none);
    }
  }

  lemma AgreesStep<T>(es: seq<Entry>, kind: Kind, parse: string -> T, f: nat, m: map<Level, T>, none: T)
    requires f < |es| - 1 && UniqueKeys(es) && First(es, kind, f) && GlobalIsFirst(es, kind, parse)
    requires Shape(es[..|es| - 1], kind, parse, f, m)
    requires Agrees(es[..|es| - 1], kind, parse, m, none) && Compressed(m)
    ensures var e := es[|es| - 1];
            var m' := if e.kind == kind then Stored(m, e.level, parse(e.value)) else m;
            Agrees(es, kind, parse, m', none) && Compressed(m')
  {
    var rest, e := es[..|es| - 1], es[|es| - 1];
    assert rest[f] == es[f];
    assert m[GLOBAL] == parse(es[f].value) by {
      if i :| 0 <= i < |rest| && Has(rest[i], GLOBAL, kind) {
        assert Has(es[i], GLOBAL, kind);
      }
    }
    if e.kind == kind {
      forall i | 0 <= i < |rest| && rest[i].kind == kind
        ensures es[i].level != e.level
      {
        assert !Has(es[|es| - 1], es[i].level, es[i].kind);
      }
      assert e.level !in m || e.level == GLOBAL;
      if e.level == GLOBAL {
        assert Has(es[|es| - 1], GLOBAL, kind);
      }
    }
  }

  /** Building agrees with the list exactly when Global's value is the one that comes first. */
  lemma AgreementExactly<T>(es: seq<Entry>, kind: Kind, parse: string -> T, none: T)
    requires UniqueKeys(es)
    ensures Agrees(es, kind, parse, Built(es, kind, parse), none) <==> GlobalIsFirst(es, kind, parse)
  {
    var m := Built(es, kind, parse);
    forall i, f: nat | 0 <= i < |es| && Has(es[i], GLOBAL, kind) && First(es, kind, f)
      ensures Agrees(es, kind, parse, m, none) ==> parse(es[i].value) == parse(es[f].value)
    {
      BuiltShape(es, kind, parse, f);
      FirstFallsBack(es, kind, parse, f, m, none);
    }
    if GlobalIsFirst(es, kind, parse) {
      if i :| 0 <= i < |es| && es[i].kind == kind {
        var f := FindKind(es, kind, i);
        BuiltAgrees(es, kind, parse, f, none);
      }
    }
  }

  lemma {:induction false} FindKind(es: seq<Entry>, kind: Kind, i: nat) returns (f: nat)
    requires i < |es| && es[i].kind == kind
    ensures First(es, kind, f)
  {
    if j: nat :| j < i && es[j].kind == kind {
      f := FindKind(es, kind, j);
    } else {
      f := i;
    }
  }

  /** The first entry's value went to Global: its level is looked up there, whatever is stored there since. */
  lemma FirstFallsBack<T>(es: seq<Entry>, kind: Kind, parse: string -> T, f: nat, m: map<Level, T>, none: T)
    requires UniqueKeys(es) && First(es, kind, f) && Shape(es, kind, parse, f, m)
    ensures Lookup(m, es[f].level, none) == m[GLOBAL]
  {
    forall i | f < i < |es|
      ensures !Has(es[i], es[f].level, kind)
    {
    }
  }

  // ------------------------------------------------------------------ whole histories

  lemma {:induction false} AskedOfGlobal(changes: seq<Change>, l: Level, kind: Kind)
    requires kind != UnknownKind && Covers(GLOBAL, l)
    ensures Asked(changes, l, kind).Some?
  {
    if changes != [] {
      AskedOfGlobal(changes[..|changes| - 1], l, kind);
    }
  }

  /** What was last asked for at this level, or else globally. */
  function InForce(changes: seq<Change>, l: Level, kind: Kind): string {
    match Asked(changes, l, kind)
    case Some(value) => value
    case None => match Asked(changes, GLOBAL, kind) case Some(value) => value case None => ""
  }

  /**
    * Starting from the defaults, after any changes, a lookup returns what was last asked for at its
    * level; a level nothing was ever asked for falls back to what was last asked for globally.
    */
  lemma LookupIsWhatWasAsked<T>(changes: seq<Change>, kind: Kind, parse: string -> T, l: Level, none: T)
    requires kind != UnknownKind
    ensures Covers(GLOBAL, l) ==> Asked(changes, l, kind).Some?
    ensures Asked(changes, GLOBAL, kind).Some?
    ensures Lookup(Built(Configured(changes), kind, parse), l, none)
         == parse(InForce(changes, l, kind))
    ensures Compressed(Built(Configured(changes), kind, parse))
  {
    hide SetToDefault;
    var es := Configured(changes);
    AskedOfGlobal(changes, GLOBAL, kind);
    if Covers(GLOBAL, l) {
      AskedOfGlobal(changes, l, kind);
    }
    ConfiguredHoldsWhatWasAsked(changes, l, kind);
    ConfiguredHoldsWhatWasAsked(changes, GLOBAL, kind);
    LedLookup(es, kind, parse, l, none);
  }

  /** The same, of any list with unique keys in which Global's entry leads. */
  lemma LedLookup<T>(es: seq<Entry>, kind: Kind, parse: string -> T, l: Level, none: T)
    requires UniqueKeys(es) && Led(es, kind)
    ensures Compressed(Built(es, kind, parse))
    ensures Get(es, GLOBAL, kind).Some?
    ensures Lookup(Built(es, kind, parse), l, none)
         == parse(if Get(es, l, kind).Some? then Get(es, l, kind).value else Get(es, GLOBAL, kind).value)
  {
    var m := Built(es, kind, parse);
    var f: nat :| First(es, kind, f) && es[f].level == GLOBAL;
    assert Has(es[f], GLOBAL, kind);
    forall i | f < i < |es|
      ensures !Has(es[i], GLOBAL, kind)
    {
    }
    assert GlobalIsFirst(es, kind, parse);
    BuiltAgrees(es, kind, parse, f, none);
    BuiltShape(es, kind, parse, f);
    assert Find(es, GLOBAL, kind) == f;
    assert Lookup(m, GLOBAL, none) == parse(es[f].value);
    assert Find(es, l, kind) == |es| ==> l !in m;
  }

  /** Keys are unique and the list starts with this one. */
  ghost predicate Headed(es: seq<Entry>, level: Level, kind: Kind) {
    UniqueKeys(es) && |es| > 0 && Has(es[0], level, kind)
  }

  lemma {:induction false} PutFromKeepsHead(es: seq<Entry>, from: Level, k: Kind, value: string, level: Level,
                                            kind: Kind)
    requires from > 0 && Headed(es, level, kind)
    ensures Headed(PutFrom(es, from, k, value), level, kind)
    decreases MAX_VALID - from
  {
    if from <= MAX_VALID {
      PutKeepsUniqueKeys(es, from, k, value);
      PutFromKeepsHead(Put(es, from, k, value), 2 * from, k, value, level, kind);
    }
  }

  lemma SetKeepsHead(es: seq<Entry>, l: Level, k: Kind, value: string, level: Level, kind: Kind)
    requires Headed(es, level, kind)
    ensures Headed(Set(es, l, k, value), level, kind)
  {
    hide PutFrom;
    var put := Put(es, l, k, value);
    PutKeepsUniqueKeys(es, l, k, value);
    PutFromKeepsHead(put, MIN_VALID, k, value, level, kind);
    PutFromKeepsHead(PutFrom(put, MIN_VALID, k, value), MIN_VALID, k, value, level, kind);
  }

  lemma HeadFallsBack<T>(es: seq<Entry>, level: Level, kind: Kind, parse: string -> T, w: string, none: T)
    requires Headed(es, level, kind) && Get(es, GLOBAL, kind) == Some(w)
    ensures Lookup(Built(es, kind, parse), level, none) == parse(w)
  {
    var m := Built(es, kind, parse);
    BuiltShape(es, kind, parse, 0);
    FirstFallsBack(es, kind, parse, 0, m, none);
    assert Has(es[Find(es, GLOBAL, kind)], GLOBAL, kind);
  }

  /**
    * Without the defaults it can fail: set one level, then Global, then that level again, and the
    * table still has Global's value for that level.
    */
  lemma WithoutDefaultsAChangeIsLost<T>(level: Level, kind: Kind, parse: string -> T, v: string, w: string, none: T)
    requires level != GLOBAL
    ensures var es := Set(Set(Set([], level, kind, v), GLOBAL, kind, w), level, kind, v);
            Get(es, level, kind) == Some(v) && Lookup(Built(es, kind, parse), level, none) == parse(w)
  {
    var e1 := [Entry(level, kind, v)];
    assert Set([], level, kind, v) == e1;
    assert Headed(e1, level, kind);
    hide Set, Get, Built, Lookup, Headed;
    var e2 := Set(e1, GLOBAL, kind, w);
    var e3 := Set(e2, level, kind, v);
    SetKeepsHead(e1, GLOBAL, kind, w, level, kind);
    SetKeepsHead(e2, level, kind, v, level, kind);
    SetMeaning(e1, GLOBAL, kind, w, GLOBAL, kind);
    SetMeaning(e2, level, kind, v, GLOBAL, kind);
    SetMeaning(e2, level, kind, v, level, kind);
    HeadFallsBack(e3, level, kind, parse, w, none);
  }

  /** Such a lost change: INFO is switched on again, and stays off. */
  lemma InfoStaysOff()
    ensures var es := Set(Set(Set([], INFO, Enabled, "true"), GLOBAL, Enabled, "false"), INFO, Enabled, "true");
            !Lookup(Built(es, Enabled, GetBool), INFO, false)
  {
    hide Set, Built, Lookup;
    assert Trim("false") == "false";
    WithoutDefaultsAChangeIsLost(INFO, Enabled, GetBool, "true", "false", false);
  }

  // ------------------------------------------------------------------ in plain values

  lemma DefaultsInForce(l: Level, kind: Kind)
    requires l in {1, 2, 4, 8, 16, 32, 64, 128} && kind != UnknownKind
    ensures InForce([], l, kind) == Default(l, kind)
  {
  }

  lemma FlagIsOn(l: Level, kind: Kind)
    requires l in {1, 2, 4, 8, 16, 32, 64, 128} && kind in {Enabled, ToFile, ToStandardOutput}
    ensures Lookup(Built(Configured([]), kind, GetBool), l, false)
  {
    hide Lookup, Built, Configured, GetBool, InForce;
    DefaultsInForce(l, kind);
    DefaultWords();
    LookupIsWhatWasAsked([], kind, GetBool, l, false);
  }

  lemma LimitIsZero(l: Level, kind: Kind)
    requires l in {1, 2, 4, 8, 16, 32, 64, 128} && kind in {MaxLogFileSize, LogFlushThreshold}
    ensures Lookup(Built(Configured([]), kind, GetULong), l, 1) == 0
  {
    hide Lookup, Built, Configured, GetULong, InForce;
    DefaultsInForce(l, kind);
    DefaultWords();
    LookupIsWhatWasAsked([], kind, GetULong, l, 1);
  }

  /** From the defaults, all three flags are on at Global and at every valid level, no file is too large,
      and nothing is kept back from flushing. */
  lemma DefaultsAreOn(l: Level)
    requires l in {1, 2, 4, 8, 16, 32, 64, 128}
    ensures Lookup(Built(Configured([]), Enabled, GetBool), l, false)
    ensures Lookup(Built(Configured([]), ToFile, GetBool), l, false)
    ensures Lookup(Built(Configured([]), ToStandardOutput, GetBool), l, false)
    ensures Lookup(Built(Configured([]), MaxLogFileSize, GetULong), l, 1) == 0
    ensures Lookup(Built(Configured([]), LogFlushThreshold, GetULong), l, 1) == 0
  {
    hide Lookup, Built, Configured, GetBool, GetULong;
    FlagIsOn(l, Enabled);
    FlagIsOn(l, ToFile);
    FlagIsOn(l, ToStandardOutput);
    LimitIsZero(l, MaxLogFileSize);
    LimitIsZero(l, LogFlushThreshold);
  }

  lemma DefaultWords()
    ensures GetBool("true") && GetULong("0") == 0 && Precision("3") == 3
  {
    FlagWords("", "true", "");
    assert "" + "true" + "" == "true";
    NumbersRead("", 0, "", "");
    assert "" + Decimals.Digits(0) + "" == "0";
    PrecisionsRead("", 3, "");
    assert "" + Decimals.Digits(3) + "" == "3";
  }

  /** Switching one level, after anything else: the flag is on at that level exactly if the word says so,
      and from Global at all eight; every other level and flag keeps its value. */
  lemma SwitchingWorks(changes: seq<Change>, level: Level, kind: Kind, left: string, w: string, right: string,
                       l: Level, k: Kind)
    requires kind != UnknownKind && k != UnknownKind && Blank(left) && Bare(w) && Blank(right)
    ensures var after := Configured(changes + [Change(level, kind, left + w + right)]);
            && (l == level || (level == 1 && l in {1, 2, 4, 8, 16, 32, 64, 128}) ==>
                  (Lookup(Built(after, kind, GetBool), l, false) <==> w == "TRUE" || w == "true" || w == "1"))
            && (k != kind || (level != 1 && l != level) ==>
                  Lookup(Built(after, k, GetBool), l, false) ==
                  Lookup(Built(Configured(changes), k, GetBool), l, false))
  {
    hide Lookup, Built, Configured, GetBool, Asked;
    var c := Change(level, kind, left + w + right);
    FlagWords(left, w, right);
    OneMoreChange(changes, c, l, kind);
    OneMoreChange(changes, c, l, k);
    OneMoreChange(changes, c, GLOBAL, k);
    LookupIsWhatWasAsked(changes + [c], kind, GetBool, l, false);
    LookupIsWhatWasAsked(changes + [c], k, GetBool, l, false);
    LookupIsWhatWasAsked(changes, k, GetBool, l, false);
  }
}
