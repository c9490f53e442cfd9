/**
  * The logger's configuration list and the compressed per-level tables built from it, as values:
  * what a sequence of changes means, and when a table lookup agrees with the list.
  */
module ConfigurationTables {
  import opened Options

  // ------------------------------------------------------------------ levels and entries

  type Level = nat

  const GLOBAL: Level := 1
  const TRACE: Level := 2
  const DEBUG: Level := 4
  const FATAL: Level := 8
  const ERROR: Level := 16
  const WARNING: Level := 32
  const VERBOSE: Level := 64
  const INFO: Level := 128
  const MIN_VALID: Level := TRACE
  const MAX_VALID: Level := INFO

  /** Each level's number, which masks and loops over levels rely on. */
  lemma LevelNumbers()
    ensures [GLOBAL, TRACE, DEBUG, FATAL, ERROR, WARNING, VERBOSE, INFO] == [1, 2, 4, 8, 16, 32, 64, 128]
    ensures MIN_VALID == 2 && MAX_VALID == 128
  {
  }

  predicate IsValid(level: Level) {
    level in {TRACE, DEBUG, FATAL, ERROR, WARNING, VERBOSE, INFO}
  }

  datatype Kind = Enabled | ToFile | ToStandardOutput | Format | Filename | SubsecondPrecision
                | PerformanceTracking | MaxLogFileSize | LogFlushThreshold | UnknownKind

  datatype Entry = Entry(level: Level, kind: Kind, value: string)

  predicate Has(e: Entry, level: Level, kind: Kind) {
    e.level == level && e.kind == kind
  }

  /** The position of the first entry with this key, or the length of the list. */
  function Find(es: seq<Entry>, level: Level, kind: Kind): (i: nat)
    ensures i <= |es|
    ensures i < |es| ==> Has(es[i], level, kind)
    ensures forall j :: 0 <= j < i ==> !Has(es[j], level, kind)
  {
    if es == [] || Has(es[0], level, kind) then 0 else 1 + Find(es[1..], level, kind)
  }

  function Get(es: seq<Entry>, level: Level, kind: Kind): Option<string> {
    var i := Find(es, level, kind);
    if i < |es| then Some(es[i].value) else None
  }

  // ------------------------------------------------------------------ changes

  /** Update the entry in place, or append a new one. */
  function Put(es: seq<Entry>, level: Level, kind: Kind, value: string): seq<Entry> {
    var i := Find(es, level, kind);
    if i < |es| then es[i := es[i].(value := value)] else es + [Entry(level, kind, value)]
  }

  /** Put at every level from `level` on, doubling it each time. */
  function PutFrom(es: seq<Entry>, level: Level, kind: Kind, value: string): seq<Entry>
    requires level > 0
    decreases MAX_VALID - level
  {
    if level > MAX_VALID then es else PutFrom(Put(es, level, kind, value), 2 * level, kind, value)
  }

  function UnsafeSet(es: seq<Entry>, level: Level, kind: Kind, value: string): seq<Entry> {
    var put := Put(es, level, kind, value);
    if level == GLOBAL then PutFrom(put, MIN_VALID, kind, value) else put
  }

  function Set(es: seq<Entry>, level: Level, kind: Kind, value: string): seq<Entry> {
    var put := UnsafeSet(es, level, kind, value);
    if level == GLOBAL then PutFrom(put, MIN_VALID, kind, value) else put
  }

  function SetGlobally(es: seq<Entry>, kind: Kind, value: string): seq<Entry> {
    PutFrom(Set(es, GLOBAL, kind, value), MIN_VALID, kind, value)
  }

  const DEFAULT_LOG_FILE := "myeasylog.log"
  const PLAIN_FORMAT := "%datetime %level [%logger] %msg"
  const DEBUG_FORMAT := "%datetime %level [%logger] [%user@%host] [%func] [%loc] %msg"
  const VERBOSE_FORMAT := "%datetime %level-%vlevel [%logger] %msg"
  const TRACE_FORMAT := "%datetime %level [%logger] [%func] [%loc] %msg"

  function SetSettings(es: seq<Entry>): seq<Entry> {
    var es := SetGlobally(es, Enabled, "true");
    var es := SetGlobally(es, Filename, DEFAULT_LOG_FILE);
    var es := SetGlobally(es, ToFile, "true");
    var es := SetGlobally(es, ToStandardOutput, "true");
    var es := SetGlobally(es, SubsecondPrecision, "3");
    var es := SetGlobally(es, PerformanceTracking, "true");
    var es := SetGlobally(es, MaxLogFileSize, "0");
    SetGlobally(es, LogFlushThreshold, "0")
  }

  function SetFormats(es: seq<Entry>): seq<Entry> {
    var es := SetGlobally(es, Format, PLAIN_FORMAT);
    var es := Set(es, DEBUG, Format, DEBUG_FORMAT);
    var es := Set(es, ERROR, Format, PLAIN_FORMAT);
    var es := Set(es, FATAL, Format, PLAIN_FORMAT);
    var es := Set(es, VERBOSE, Format, VERBOSE_FORMAT);
    Set(es, TRACE, Format, TRACE_FORMAT)
  }

  function SetToDefault(es: seq<Entry>): seq<Entry> {
    SetFormats(SetSettings(es))
  }

  // ------------------------------------------------------------------ what every change keeps

  /** No two entries share a level and a kind. */
  ghost predicate UniqueKeys(es: seq<Entry>) {
    forall i, j :: 0 <= i < j < |es| ==> !Has(es[j], es[i].level, es[i].kind)
  }

  /** f is the position of the first entry of this kind. */
  ghost predicate First(es: seq<Entry>, kind: Kind, f: nat) {
    f < |es| && es[f].kind == kind && forall j :: 0 <= j < f ==> es[j].kind != kind
  }

  /** There are entries of this kind, and the first of them is Global's. */
  ghost predicate Led(es: seq<Entry>, kind: Kind) {
    exists f: nat :: First(es, kind, f) && es[f].level == GLOBAL
  }

  lemma PutKeepsUniqueKeys(es: seq<Entry>, level: Level, kind: Kind, value: string)
    requires UniqueKeys(es)
    ensures UniqueKeys(Put(es, level, kind, value))
  {
  }

  /** Either no entry of this kind, or Global's comes first. */
  ghost predicate Tame(es: seq<Entry>, kind: Kind) {
    Led(es, kind) || forall i :: 0 <= i < |es| ==> es[i].kind != kind
  }

  /** A kind that already has its Global entry, or is about to get it, or is not the one changed. */
  ghost predicate Safe(es: seq<Entry>, level: Level, kind: Kind, k: Kind) {
    Led(es, k) || (Tame(es, k) && (level == GLOBAL || k != kind))
  }

  lemma PutKeepsTame(es: seq<Entry>, level: Level, kind: Kind, value: string, k: Kind)
    requires Safe(es, level, kind, k)
    ensures Tame(Put(es, level, kind, value), k)
    ensures Led(es, k) || k == kind ==> Led(Put(es, level, kind, value), k)
  {
    var put := Put(es, level, kind, value);
    if Led(es, k) {
      var f: nat :| First(es, k, f) && es[f].level == GLOBAL;
      assert First(put, k, f);
    } else if k == kind {
      assert First(put, k, |es|);
    }
  }

  /** Find depends on the keys only, and on nothing behind the entry it finds. */
  lemma SameFind(es: seq<Entry>, put: seq<Entry>, l: Level, k: Kind)
    requires |es| <= |put|
    requires forall i :: 0 <= i < |es| ==> Has(put[i], es[i].level, es[i].kind)
    ensures Find(es, l, k) < |es| ==> Find(put, l, k) == Find(es, l, k)
    ensures Find(es, l, k) == |es| ==> Find(put, l, k) >= |es|
  {
    var i, j := Find(es, l, k), Find(put, l, k);
    if i < |es| {
      assert Has(put[i], l, k);
    }
    if j < |es| {
      assert Has(es[j], l, k);
    }
  }

  lemma AppendMeaning(es: seq<Entry>, e: Entry, l: Level, k: Kind)
    ensures Get(es + [e], l, k) == if Get(es, l, k) == None && Has(e, l, k) then Some(e.value) else Get(es, l, k)
  {
    SameFind(es, es + [e], l, k);
    assert (es + [e])[|es|] == e;
  }

  lemma UpdateMeaning(es: seq<Entry>, i: nat, value: string, l: Level, k: Kind)
    requires i < |es| && Find(es, es[i].level, es[i].kind) == i
    ensures Get(es[i := es[i].(value := value)], l, k) == if Has(es[i], l, k) then Some(value) else Get(es, l, k)
  {
    SameFind(es, es[i := es[i].(value := value)], l, k);
  }

  /** Putting changes what its own key is bound to and nothing else. */
  lemma PutMeaning(es: seq<Entry>, level: Level, kind: Kind, value: string, l: Level, k: Kind)
    ensures Get(Put(es, level, kind, value), l, k)
         == if l == level && k == kind then Some(value) else Get(es, l, k)
  {
    var i := Find(es, level, kind);
    if i < |es| {
      UpdateMeaning(es, i, value, l, k);
    } else {
      AppendMeaning(es, Entry(level, kind, value), l, k);
    }
  }

  lemma {:induction false} PutFromKeeps(es: seq<Entry>, level: Level, kind: Kind, value: string, k: Kind)
    requires level > 0 && UniqueKeys(es) && Tame(es, k)
    requires Led(es, k) || k != kind
    ensures UniqueKeys(PutFrom(es, level, kind, value))
    ensures Tame(PutFrom(es, level, kind, value), k)
    ensures Led(es, k) ==> Led(PutFrom(es, level, kind, value), k)
    decreases MAX_VALID - level
  {
    if level <= MAX_VALID {
      PutKeepsUniqueKeys(es, level, kind, value);
      PutKeepsTame(es, level, kind, value, k);
      PutFromKeeps(Put(es, level, kind, value), 2 * level, kind, value, k);
    }
  }

  /** The levels that doubling visits. */
  predicate Visited(level: Level, l: Level)
    requires level > 0
    decreases MAX_VALID - level
  {
    level <= MAX_VALID && (l == level || Visited(2 * level, l))
  }

  /** Doubling from the least valid level visits exactly the valid ones. */
  lemma VisitedIsValid(l: Level)
    ensures Visited(MIN_VALID, l) <==> IsValid(l)
  {
    assert Visited(16, l) <==> l in {16, 32, 64, 128};
  }

  lemma {:induction false} PutFromMeaning(es: seq<Entry>, level: Level, kind: Kind, value: string, l: Level, k: Kind)
    requires level > 0
    ensures Get(PutFrom(es, level, kind, value), l, k)
         == if Visited(level, l) && k == kind then Some(value) else Get(es, l, k)
    decreases MAX_VALID - level
  {
    if level <= MAX_VALID {
      PutMeaning(es, level, kind, value, l, k);
      PutFromMeaning(Put(es, level, kind, value), 2 * level, kind, value, l, k);
    }
  }

  /** Setting at Global binds every valid level as well. */
  predicate Covers(level: Level, l: Level) {
    l == level || (level == GLOBAL && IsValid(l))
  }

  lemma SetMeaning(es: seq<Entry>, level: Level, kind: Kind, value: string, l: Level, k: Kind)
    ensures Get(Set(es, level, kind, value), l, k)
         == if Covers(level, l) && k == kind then Some(value) else Get(es, l, k)
  {
    var put := Put(es, level, kind, value);
    PutMeaning(es, level, kind, value, l, k);
    if level == GLOBAL {
      VisitedIsValid(l);
      PutFromMeaning(put, MIN_VALID, kind, value, l, k);
      PutFromMeaning(PutFrom(put, MIN_VALID, kind, value), MIN_VALID, kind, value, l, k);
    }
  }

  lemma SetGloballyMeaning(es: seq<Entry>, kind: Kind, value: string, l: Level, k: Kind)
    ensures Get(SetGlobally(es, kind, value), l, k)
         == if Covers(GLOBAL, l) && k == kind then Some(value) else Get(es, l, k)
  {
    SetMeaning(es, GLOBAL, kind, value, l, k);
    VisitedIsValid(l);
    PutFromMeaning(Set(es, GLOBAL, kind, value), MIN_VALID, kind, value, l, k);
  }

  lemma SetKeeps(es: seq<Entry>, level: Level, kind: Kind, value: string, k: Kind)
    requires UniqueKeys(es) && Safe(es, level, kind, k)
    ensures UniqueKeys(Set(es, level, kind, value))
    ensures Tame(Set(es, level, kind, value), k)
    ensures Led(es, k) || k == kind ==> Led(Set(es, level, kind, value), k)
  {
    var put := Put(es, level, kind, value);
    PutKeepsUniqueKeys(es, level, kind, value);
    PutKeepsTame(es, level, kind, value, k);
    if level == GLOBAL {
      PutFromKeeps(put, MIN_VALID, kind, value, k);
      PutFromKeeps(PutFrom(put, MIN_VALID, kind, value), MIN_VALID, kind, value, k);
    }
  }

  lemma SetGloballyKeeps(es: seq<Entry>, kind: Kind, value: string, k: Kind)
    requires UniqueKeys(es) && Tame(es, k)
    ensures UniqueKeys(SetGlobally(es, kind, value)) && Tame(SetGlobally(es, kind, value), k)
    ensures Led(es, k) || k == kind ==> Led(SetGlobally(es, kind, value), k)
  {
    SetKeeps(es, GLOBAL, kind, value, k);
    PutFromKeeps(Set(es, GLOBAL, kind, value), MIN_VALID, kind, value, k);
  }

  // ------------------------------------------------------------------ runs

  function DefaultSetting(kind: Kind): string {
    match kind
    case Enabled => "true"
    case Filename => DEFAULT_LOG_FILE
    case ToFile => "true"
    case ToStandardOutput => "true"
    case SubsecondPrecision => "3"
    case PerformanceTracking => "true"
    case MaxLogFileSize => "0"
    case LogFlushThreshold => "0"
    case Format => PLAIN_FORMAT
    case UnknownKind => ""
  }

  function Default(level: Level, kind: Kind): string {
    if kind != Format then DefaultSetting(kind)
    else if level == DEBUG then DEBUG_FORMAT
    else if level == VERBOSE then VERBOSE_FORMAT
    else if level == TRACE then TRACE_FORMAT
    else PLAIN_FORMAT
  }

  /** A setting applied globally: its own kind becomes led and bound everywhere, other kinds are untouched. */
  ghost predicate Applied(es: seq<Entry>, after: seq<Entry>, kinds: set<Kind>, l: Level, k: Kind) {
    && UniqueKeys(after) && Tame(after, k)
    && (Led(es, k) || k in kinds ==> Led(after, k))
    && Get(after, l, k) == if k in kinds && Covers(GLOBAL, l) then Some(DefaultSetting(k)) else Get(es, l, k)
  }

  lemma ApplyOne(es: seq<Entry>, before: seq<Entry>, kinds: set<Kind>, kind: Kind, l: Level, k: Kind)
    requires Applied(es, before, kinds, l, k)
    ensures Applied(es, SetGlobally(before, kind, DefaultSetting(kind)), kinds + {kind}, l, k)
  {
    hide SetGlobally, UniqueKeys, Led, Tame, Get;
    SetGloballyKeeps(before, kind, DefaultSetting(kind), k);
    SetGloballyMeaning(before, kind, DefaultSetting(kind), l, k);
  }

  lemma ApplyNone(es: seq<Entry>, l: Level, k: Kind)
    requires UniqueKeys(es) && Tame(es, k)
    ensures Applied(es, es, {}, l, k)
  {
  }

  const SETTINGS := {Enabled, Filename, ToFile, ToStandardOutput, SubsecondPrecision, PerformanceTracking,
                     MaxLogFileSize, LogFlushThreshold}

  lemma SetSettingsMeaning(es: seq<Entry>, l: Level, k: Kind)
    requires UniqueKeys(es) && Tame(es, k)
    ensures Applied(es, SetSettings(es), SETTINGS, l, k)
  {
    hide SetGlobally, UniqueKeys, Led, Tame, Get, Applied;
    var k0: set<Kind> := {};
    ApplyNone(es, l, k);
    ApplyOne(es, es, k0, Enabled, l, k);
    var es1, k1 := SetGlobally(es, Enabled, "true"), k0 + {Enabled};
    ApplyOne(es, es1, k1, Filename, l, k);
    var es2, k2 := SetGlobally(es1, Filename, DEFAULT_LOG_FILE), k1 + {Filename};
    ApplyOne(es, es2, k2, ToFile, l, k);
    var es3, k3 := SetGlobally(es2, ToFile, "true"), k2 + {ToFile};
    ApplyOne(es, es3, k3, ToStandardOutput, l, k);
    var es4, k4 := SetGlobally(es3, ToStandardOutput, "true"), k3 + {ToStandardOutput};
    ApplyOne(es, es4, k4, SubsecondPrecision, l, k);
    var es5, k5 := SetGlobally(es4, SubsecondPrecision, "3"), k4 + {SubsecondPrecision};
    ApplyOne(es, es5, k5, PerformanceTracking, l, k);
    var es6, k6 := SetGlobally(es5, PerformanceTracking, "true"), k5 + {PerformanceTracking};
    ApplyOne(es, es6, k6, MaxLogFileSize, l, k);
    var es7, k7 := SetGlobally(es6, MaxLogFileSize, "0"), k6 + {MaxLogFileSize};
    ApplyOne(es, es7, k7, LogFlushThreshold, l, k);
    var es8, k8 := SetGlobally(es7, LogFlushThreshold, "0"), k7 + {LogFlushThreshold};
    assert k8 == SETTINGS;
  }

  /** What the default formats leave alone, and what they bind. */
  lemma SetFormatsMeaning(es: seq<Entry>, l: Level, k: Kind)
    requires UniqueKeys(es) && Tame(es, k)
    ensures UniqueKeys(SetFormats(es)) && Tame(SetFormats(es), k)
    ensures Led(es, k) || k == Format ==> Led(SetFormats(es), k)
    ensures Get(SetFormats(es), l, k)
         == if k == Format && Covers(GLOBAL, l) then Some(Default(l, k)) else Get(es, l, k)
  {
    hide SetGlobally, Set, UniqueKeys, Led, Tame, Get;
    var es1 := SetGlobally(es, Format, PLAIN_FORMAT);
    SetGloballyKeeps(es, Format, PLAIN_FORMAT, k);
    SetGloballyMeaning(es, Format, PLAIN_FORMAT, l, k);
    var es2 := FormatStep(es1, DEBUG, DEBUG_FORMAT, l, k);
    var es3 := FormatStep(es2, ERROR, PLAIN_FORMAT, l, k);
    var es4 := FormatStep(es3, FATAL, PLAIN_FORMAT, l, k);
    var es5 := FormatStep(es4, VERBOSE, VERBOSE_FORMAT, l, k);
    var es6 := FormatStep(es5, TRACE, TRACE_FORMAT, l, k);
  }

  lemma FormatStep(es: seq<Entry>, level: Level, value: string, l: Level, k: Kind) returns (after: seq<Entry>)
    requires UniqueKeys(es) && Tame(es, k) && (k == Format ==> Led(es, k))
    ensures after == Set(es, level, Format, value)
    ensures UniqueKeys(after) && Tame(after, k)
    ensures Led(es, k) ==> Led(after, k)
    ensures Get(after, l, k) == if Covers(level, l) && k == Format then Some(value) else Get(es, l, k)
  {
    after := Set(es, level, Format, value);
    SetKeeps(es, level, Format, value, k);
    SetMeaning(es, level, Format, value, l, k);
  }

  lemma NothingYet(l: Level, k: Kind)
    ensures UniqueKeys([]) && Tame([], k) && Get([], l, k) == None
  {
  }

  lemma SettingsDefault(l: Level, k: Kind)
    ensures k in SETTINGS <==> k != Format && k != UnknownKind
    ensures k in SETTINGS ==> Default(l, k) == DefaultSetting(k)
  {
  }

  /** Every key the defaults bind, and what to; and every kind they set is led by Global's entry. */
  lemma DefaultsMeaning(l: Level, k: Kind)
    ensures UniqueKeys(SetToDefault([]))
    ensures k != UnknownKind ==> Led(SetToDefault([]), k)
    ensures Get(SetToDefault([]), l, k)
         == if k != UnknownKind && Covers(GLOBAL, l) then Some(Default(l, k)) else None
  {
    NothingYet(l, k);
    hide SetSettings, SetFormats, UniqueKeys, Led, Tame, Get, Default, DefaultSetting;
    SetSettingsMeaning([], l, k);
    SetFormatsMeaning(SetSettings([]), l, k);
    SettingsDefault(l, k);
  }

  datatype Change = Change(level: Level, kind: Kind, value: string)

  /** The list after setToDefault on a fresh one and a sequence of set calls. */
  function Configured(changes: seq<Change>): seq<Entry> {
    if changes == [] then SetToDefault([]) else
      var c := changes[|changes| - 1];
      Set(Configured(changes[..|changes| - 1]), c.level, c.kind, c.value)
  }

  /** What was last asked for: the value of the last change that covers the level, else the default. */
  function Asked(changes: seq<Change>, l: Level, k: Kind): Option<string> {
    if changes == [] then (if k != UnknownKind && Covers(GLOBAL, l) then Some(Default(l, k)) else None) else
      var c := changes[|changes| - 1];
      if Covers(c.level, l) && c.kind == k then Some(c.value) else Asked(changes[..|changes| - 1], l, k)
  }

  /** Whatever was set, keys stay unique, Global's entry leads each kind, and the list holds what was last asked for. */
  lemma {:induction false} ConfiguredHoldsWhatWasAsked(changes: seq<Change>, l: Level, k: Kind)
    ensures UniqueKeys(Configured(changes))
    ensures k != UnknownKind ==> Led(Configured(changes), k)
    ensures Get(Configured(changes), l, k) == Asked(changes, l, k)
  {
    if changes == [] {
      DefaultsMeaning(l, k);
    } else {
      hide Set, SetToDefault;
      var rest, c := changes[..|changes| - 1], changes[|changes| - 1];
      ConfiguredHoldsWhatWasAsked(rest, l, k);
      var led := if k == UnknownKind then Enabled else k;
      ConfiguredHoldsWhatWasAsked(rest, l, led);
      SetKeeps(Configured(rest), c.level, c.kind, c.value, led);
      SetMeaning(Configured(rest), c.level, c.kind, c.value, l, k);
    }
  }

  /** What the defaults say, in full: one value for every level, except for the formats. */
  lemma DefaultsInFull(l: Level)
    requires l in {1, 2, 4, 8, 16, 32, 64, 128}
    ensures Get(SetToDefault([]), l, Enabled) == Some("true")
    ensures Get(SetToDefault([]), l, Filename) == Some("myeasylog.log")
    ensures Get(SetToDefault([]), l, ToFile) == Some("true")
    ensures Get(SetToDefault([]), l, ToStandardOutput) == Some("true")
    ensures Get(SetToDefault([]), l, SubsecondPrecision) == Some("3")
    ensures Get(SetToDefault([]), l, PerformanceTracking) == Some("true")
    ensures Get(SetToDefault([]), l, MaxLogFileSize) == Some("0")
    ensures Get(SetToDefault([]), l, LogFlushThreshold) == Some("0")
  {
    hide SetToDefault, Get, UniqueKeys, Led;
    DefaultsMeaning(l, Enabled);
    DefaultsMeaning(l, Filename);
    DefaultsMeaning(l, ToFile);
    DefaultsMeaning(l, ToStandardOutput);
    DefaultsMeaning(l, SubsecondPrecision);
    DefaultsMeaning(l, PerformanceTracking);
    DefaultsMeaning(l, MaxLogFileSize);
    DefaultsMeaning(l, LogFlushThreshold);
  }

  lemma FormatsInFull()
    ensures forall l :: l in {1, 8, 16, 32, 128} ==>
              Get(SetToDefault([]), l, Format) == Some("%datetime %level [%logger] %msg")
    ensures Get(SetToDefault([]), 4, Format) ==
            Some("%datetime %level [%logger] [%user@%host] [%func] [%loc] %msg")
    ensures Get(SetToDefault([]), 64, Format) == Some("%datetime %level-%vlevel [%logger] %msg")
    ensures Get(SetToDefault([]), 2, Format) == Some("%datetime %level [%logger] [%func] [%loc] %msg")
  {
    hide SetToDefault, Get;
    forall l | l in {1, 2, 4, 8, 16, 32, 64, 128}
      ensures Get(SetToDefault([]), l, Format) == Some(Default(l, Format))
    {
      DefaultsMeaning(l, Format);
    }
  }

  /** What one more change does to what was asked for: it reaches its own level, and from Global all eight;
      no other level or kind notices. */
  lemma OneMoreChange(changes: seq<Change>, c: Change, l: Level, k: Kind)
    ensures k == c.kind && l == c.level ==> Asked(changes + [c], l, k) == Some(c.value)
    ensures k == c.kind && c.level == 1 && l in {1, 2, 4, 8, 16, 32, 64, 128} ==>
              Asked(changes + [c], l, k) == Some(c.value)
    ensures k != c.kind || (l != c.level && (c.level != 1 || l !in {1, 2, 4, 8, 16, 32, 64, 128})) ==>
              Asked(changes + [c], l, k) == Asked(changes, l, k)
  {
    assert (changes + [c])[..|changes|] == changes;
  }
}
