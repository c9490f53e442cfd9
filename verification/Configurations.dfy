/** The logger's configuration list and its typed view, as the objects that are changed in place. */
module LoggerConfigurations {
  import opened ConfigurationTables
  import opened TypedTables

  /** One level of a walk over the levels. */
  lemma PutFromStep(es: seq<Entry>, level: Level, kind: Kind, value: string)
    requires level > 0
    ensures PutFrom(es, level, kind, value)
         == if level > MAX_VALID then es else PutFrom(Put(es, level, kind, value), 2 * level, kind, value)
  {
  }

  class Configuration {
    const level: Level
    const kind: Kind
    var value: string

    constructor (level: Level, kind: Kind, value: string)
      ensures this.level == level && this.kind == kind && this.value == value
    {
      this.level, this.kind, this.value := level, kind, value;
    }

    method SetValue(value: string)
      modifies this
      ensures this.value == value
    {
      this.value := value;
    }
  }

  class Configurations {
    var list: seq<Configuration>
    ghost var entries: seq<Entry> // what the list says
    ghost var owned: set<Configuration>

    /** The list holds distinct objects and says what `entries` says. */
    ghost predicate Valid()
      reads this, owned
    {
      && |entries| == |list|
      && (forall i :: 0 <= i < |list| ==> list[i] in owned)
      && (forall i, j :: 0 <= i < j < |list| ==> list[i] != list[j])
      && (forall i :: 0 <= i < |list| ==> entries[i] == Entry(list[i].level, list[i].kind, list[i].value))
    }

    constructor ()
      ensures Valid() && entries == [] && owned == {}
    {
      list, entries, owned := [], [], {};
    }

    method Get(level: Level, kind: Kind) returns (conf: Configuration?)
      requires Valid()
      ensures conf == null <==> Find(entries, level, kind) == |entries|
      ensures conf != null ==> conf in owned && conf == list[Find(entries, level, kind)]
    {
      var i := 0;
      while i < |list|
        invariant i <= |list|
        invariant forall j :: 0 <= j < i ==> !Has(entries[j], level, kind)
      {
        if list[i].level == level && list[i].kind == kind {
          assert Has(entries[i], level, kind);
          return list[i];
        }
        i := i + 1;
      }
      return null;
    }

    method RegisterNew(conf: Configuration)
      requires Valid() && conf !in owned
      modifies this
      ensures Valid() && list == old(list) + [conf] && owned == old(owned) + {conf}
      ensures entries == old(entries) + [Entry(conf.level, conf.kind, conf.value)]
    {
      list, owned := list + [conf], owned + {conf};
      entries := entries + [Entry(conf.level, conf.kind, conf.value)];
    }

    method Change(ghost i: nat, conf: Configuration, value: string)
      requires Valid() && i < |list| && conf == list[i]
      modifies this, conf
      ensures Valid() && list == old(list) && owned == old(owned)
      ensures entries == old(entries)[i := old(entries)[i].(value := value)]
    {
      conf.SetValue(value);
      entries := entries[i := entries[i].(value := value)];
    }

    method PutValue(level: Level, kind: Kind, value: string)
      requires Valid()
      modifies this, owned
      ensures Valid() && fresh(owned - old(owned))
      ensures entries == Put(old(entries), level, kind, value)
    {
      var conf := Get(level, kind);
      if conf == null {
        conf := new Configuration(level, kind, value);
        RegisterNew(conf);
      } else {
        Change(Find(entries, level, kind), conf, value);
      }
    }

    method UnsafeSet(level: Level, kind: Kind, value: string)
      requires Valid()
      modifies this, owned
      ensures Valid() && fresh(owned - old(owned))
      ensures entries == ConfigurationTables.UnsafeSet(old(entries), level, kind, value)
      decreases if level == GLOBAL then 2 else 0
    {
      hide PutFrom, Put, Valid;
      PutValue(level, kind, value);
      if level == GLOBAL {
        UnsafeSetGlobally(kind, value, false);
      }
    }

    method UnsafeSetGlobally(kind: Kind, value: string, includeGlobalLevel: bool)
      requires Valid()
      modifies this, owned
      ensures Valid() && fresh(owned - old(owned))
      ensures var start := if includeGlobalLevel then ConfigurationTables.UnsafeSet(old(entries), GLOBAL, kind, value)
                                                 else old(entries);
              entries == PutFrom(start, MIN_VALID, kind, value)
      decreases if includeGlobalLevel then 3 else 1
    {
      hide PutFrom, Put, Valid;
      if includeGlobalLevel {
        UnsafeSet(GLOBAL, kind, value);
      }
      ghost var start := entries;
      var level := MIN_VALID;
      while level <= MAX_VALID
        invariant level >= MIN_VALID
        invariant Valid() && fresh(owned - old(owned))
        invariant PutFrom(entries, level, kind, value) == PutFrom(start, MIN_VALID, kind, value)
        decreases MAX_VALID - level
      {
        PutFromStep(entries, level, kind, value);
        UnsafeSet(level, kind, value);
        level := 2 * level;
      }
      PutFromStep(entries, level, kind, value);
    }

    method Set(level: Level, kind: Kind, value: string)
      requires Valid()
      modifies this, owned
      ensures Valid() && fresh(owned - old(owned))
      ensures entries == ConfigurationTables.Set(old(entries), level, kind, value)
    {
      hide PutFrom, Put, Valid;
      UnsafeSet(level, kind, value);
      if level == GLOBAL {
        UnsafeSetGlobally(kind, value, false);
      }
    }

    method SetGlobally(kind: Kind, value: string, includeGlobalLevel: bool)
      requires Valid()
      modifies this, owned
      ensures Valid() && fresh(owned - old(owned))
      ensures var start := if includeGlobalLevel then ConfigurationTables.Set(old(entries), GLOBAL, kind, value)
                                                 else old(entries);
              entries == PutFrom(start, MIN_VALID, kind, value)
    {
      hide PutFrom, Put, Valid;
      if includeGlobalLevel {
        Set(GLOBAL, kind, value);
      }
      ghost var start := entries;
      var level := MIN_VALID;
      while level <= MAX_VALID
        invariant level >= MIN_VALID
        invariant Valid() && fresh(owned - old(owned))
        invariant PutFrom(entries, level, kind, value) == PutFrom(start, MIN_VALID, kind, value)
        decreases MAX_VALID - level
      {
        PutFromStep(entries, level, kind, value);
        Set(level, kind, value);
        level := 2 * level;
      }
      PutFromStep(entries, level, kind, value);
    }

    method SetSettingsToDefault()
      requires Valid()
      modifies this, owned
      ensures Valid() && fresh(owned - old(owned))
      ensures entries == SetSettings(old(entries))
    {
      hide PutFrom, ConfigurationTables.Set, Valid;
      SetGlobally(Enabled, "true", true);
      SetGlobally(Filename, DEFAULT_LOG_FILE, true);
      SetGlobally(ToFile, "true", true);
      SetGlobally(ToStandardOutput, "true", true);
      SetGlobally(SubsecondPrecision, "3", true);
      SetGlobally(PerformanceTracking, "true", true);
      SetGlobally(MaxLogFileSize, "0", true);
      SetGlobally(LogFlushThreshold, "0", true);
    }

    method SetFormatsToDefault()
      requires Valid()
      modifies this, owned
      ensures Valid() && fresh(owned - old(owned))
      ensures entries == SetFormats(old(entries))
    {
      hide PutFrom, ConfigurationTables.Set, Valid;
      SetGlobally(Format, PLAIN_FORMAT, true);
      Set(DEBUG, Format, DEBUG_FORMAT);
      Set(ERROR, Format, PLAIN_FORMAT);
      Set(FATAL, Format, PLAIN_FORMAT);
      Set(VERBOSE, Format, VERBOSE_FORMAT);
      Set(TRACE, Format, TRACE_FORMAT);
    }

    method SetToDefault()
      requires Valid()
      modifies this, owned
      ensures Valid() && fresh(owned - old(owned))
      ensures entries == ConfigurationTables.SetToDefault(old(entries))
    {
      hide SetSettings, SetFormats;
      SetSettingsToDefault();
      SetFormatsToDefault();
    }
  }

  /** setValue, on the table it is given. */
  method SetValue<T(==)>(level: Level, value: T, confMap: map<Level, T>) returns (changed: map<Level, T>)
    ensures changed == Stored(confMap, level, value)
  {
    if |confMap| == 0 {
      return confMap[GLOBAL := value];
    }
    if GLOBAL in confMap && confMap[GLOBAL] == value {
      return confMap;
    }
    changed := confMap[level := value];
  }

  class TypedConfigurations {
    var enabledMap: map<Level, bool>
    var toFileMap: map<Level, bool>
    var toStandardOutputMap: map<Level, bool>
    var subsecondPrecisionMap: map<Level, int>
    var performanceTrackingMap: map<Level, bool>
    var maxLogFileSizeMap: map<Level, int>
    var logFlushThresholdMap: map<Level, int>

    ghost predicate BuiltFrom(es: seq<Entry>)
      reads this
    {
      FlagsFrom(es) && NumbersFrom(es)
    }

    ghost predicate FlagsFrom(es: seq<Entry>)
      reads this`enabledMap, this`toFileMap, this`toStandardOutputMap, this`performanceTrackingMap
    {
      && enabledMap == Built(es, Kind.Enabled, GetBool)
      && toFileMap == Built(es, Kind.ToFile, GetBool)
      && toStandardOutputMap == Built(es, Kind.ToStandardOutput, GetBool)
      && performanceTrackingMap == BuiltGlobally(es, Kind.PerformanceTracking, GetBool)
    }

    ghost predicate NumbersFrom(es: seq<Entry>)
      reads this`subsecondPrecisionMap, this`maxLogFileSizeMap, this`logFlushThresholdMap
    {
      && subsecondPrecisionMap == BuiltGlobally(es, Kind.SubsecondPrecision, Precision)
      && maxLogFileSizeMap == Built(es, Kind.MaxLogFileSize, GetULong)
      && logFlushThresholdMap == Built(es, Kind.LogFlushThreshold, GetULong)
    }

    constructor (configurations: Configurations)
      requires configurations.Valid()
      ensures BuiltFrom(configurations.entries)
    {
      enabledMap, toFileMap, toStandardOutputMap, subsecondPrecisionMap := map[], map[], map[], map[];
      performanceTrackingMap, maxLogFileSizeMap, logFlushThresholdMap := map[], map[], map[];
      new;
      Build(configurations);
    }

    method Build(configurations: Configurations)
      requires configurations.Valid() && BuiltFrom([])
      modifies this
      ensures BuiltFrom(configurations.entries)
    {
      ghost var es := configurations.entries;
      var i := 0;
      while i < |configurations.list|
        invariant i <= |configurations.list|
        invariant BuiltFrom(es[..i])
      {
        Add(configurations.list[i], es[..i]);
        assert es[..i] + [es[i]] == es[..i + 1];
        i := i + 1;
      }
      assert es[..i] == es;
    }

    method Add(conf: Configuration, ghost es: seq<Entry>)
      requires BuiltFrom(es)
      modifies this
      ensures BuiltFrom(es + [Entry(conf.level, conf.kind, conf.value)])
    {
      AddFlag(conf, es);
      AddNumber(conf, es);
    }

    method AddFlag(conf: Configuration, ghost es: seq<Entry>)
      requires FlagsFrom(es)
      modifies this`enabledMap, this`toFileMap, this`toStandardOutputMap, this`performanceTrackingMap
      ensures FlagsFrom(es + [Entry(conf.level, conf.kind, conf.value)])
    {
      ghost var e := Entry(conf.level, conf.kind, conf.value);
      assert (es + [e])[..|es|] == es;
      match conf.kind
      case Enabled => enabledMap := SetValue(conf.level, GetBool(conf.value), enabledMap);
      case ToFile => toFileMap := SetValue(conf.level, GetBool(conf.value), toFileMap);
      case ToStandardOutput =>
        toStandardOutputMap := SetValue(conf.level, GetBool(conf.value), toStandardOutputMap);
      case PerformanceTracking =>
        performanceTrackingMap := SetValue(GLOBAL, GetBool(conf.value), performanceTrackingMap);
      case _ =>
    }

    method AddNumber(conf: Configuration, ghost es: seq<Entry>)
      requires NumbersFrom(es)
      modifies this`subsecondPrecisionMap, this`maxLogFileSizeMap, this`logFlushThresholdMap
      ensures NumbersFrom(es + [Entry(conf.level, conf.kind, conf.value)])
    {
      ghost var e := Entry(conf.level, conf.kind, conf.value);
      assert (es + [e])[..|es|] == es;
      match conf.kind
      case SubsecondPrecision =>
        subsecondPrecisionMap := SetValue(GLOBAL, Precision(conf.value), subsecondPrecisionMap);
      case MaxLogFileSize => maxLogFileSizeMap := SetValue(conf.level, GetULong(conf.value), maxLogFileSizeMap);
      case LogFlushThreshold =>
        logFlushThresholdMap := SetValue(conf.level, GetULong(conf.value), logFlushThresholdMap);
      case _ =>
    }

    method IsEnabled(level: Level) returns (b: bool)
      ensures b == Lookup(enabledMap, level, false)
    {
      b := UnsafeGetConfigByVal(level, enabledMap, false);
    }

    method ToStandardOutput(level: Level) returns (b: bool)
      ensures b == Lookup(toStandardOutputMap, level, false)
    {
      b := UnsafeGetConfigByVal(level, toStandardOutputMap, false);
    }

    method MaxLogFileSize(level: Level) returns (n: int)
      ensures n == Lookup(maxLogFileSizeMap, level, 0)
    {
      n := UnsafeGetConfigByVal(level, maxLogFileSizeMap, 0);
    }

    method LogFlushThreshold(level: Level) returns (n: int)
      ensures n == Lookup(logFlushThresholdMap, level, 0)
    {
      n := UnsafeGetConfigByVal(level, logFlushThresholdMap, 0);
    }
  }

  method UnsafeGetConfigByVal<T>(level: Level, confMap: map<Level, T>, none: T) returns (value: T)
    ensures value == Lookup(confMap, level, none)
  {
    if level !in confMap {
      if GLOBAL in confMap {
        return confMap[GLOBAL];
      }
      return none;
    }
    value := confMap[level];
  }

  /** From the defaults, through any changes and build, to a lookup. */
  method Configure(changes: seq<Change>) returns (configurations: Configurations, typed: TypedConfigurations)
    ensures fresh(configurations) && fresh(configurations.owned) && fresh(typed)
    ensures configurations.Valid() && configurations.entries == Configured(changes)
    ensures forall l: Level ::
              && Lookup(typed.enabledMap, l, false) == GetBool(InForce(changes, l, Enabled))
              && Lookup(typed.toFileMap, l, false) == GetBool(InForce(changes, l, ToFile))
              && Lookup(typed.toStandardOutputMap, l, false) == GetBool(InForce(changes, l, ToStandardOutput))
              && Lookup(typed.maxLogFileSizeMap, l, 0) == GetULong(InForce(changes, l, MaxLogFileSize))
              && Lookup(typed.logFlushThresholdMap, l, 0) == GetULong(InForce(changes, l, LogFlushThreshold))
  {
    hide ConfigurationTables.SetToDefault, ConfigurationTables.Set;
    configurations := new Configurations();
    configurations.SetToDefault();
    var i := 0;
    while i < |changes|
      invariant i <= |changes| && fresh(configurations) && fresh(configurations.owned)
      invariant configurations.Valid() && configurations.entries == Configured(changes[..i])
    {
      configurations.Set(changes[i].level, changes[i].kind, changes[i].value);
      assert changes[..i + 1][..i] == changes[..i];
      i := i + 1;
    }
    assert changes[..i] == changes;
    typed := new TypedConfigurations(configurations);
    forall l: Level
      ensures Lookup(typed.enabledMap, l, false) == GetBool(InForce(changes, l, Enabled))
      ensures Lookup(typed.toFileMap, l, false) == GetBool(InForce(changes, l, ToFile))
      ensures Lookup(typed.toStandardOutputMap, l, false) == GetBool(InForce(changes, l, ToStandardOutput))
      ensures Lookup(typed.maxLogFileSizeMap, l, 0) == GetULong(InForce(changes, l, MaxLogFileSize))
      ensures Lookup(typed.logFlushThresholdMap, l, 0) == GetULong(InForce(changes, l, LogFlushThreshold))
    {
      LookupIsWhatWasAsked(changes, Enabled, GetBool, l, false);
      LookupIsWhatWasAsked(changes, ToFile, GetBool, l, false);
      LookupIsWhatWasAsked(changes, ToStandardOutput, GetBool, l, false);
      LookupIsWhatWasAsked(changes, MaxLogFileSize, GetULong, l, 0);
      LookupIsWhatWasAsked(changes, LogFlushThreshold, GetULong, l, 0);
    }
  }
}
