/**
 * The log panel of the console: a text query and three level toggles select
 * which stored entries are listed, and a badge counts the selected levels.
 * The toggles and the query are the panel's inputs.
 */
module ConsoleContainer {
  import opened Js
  import opened EventRegistry

  /** The `displayInfo`, `displayWarn` and `displayError` toggles. */
  datatype LevelToggles = LevelToggles(displayInfo: bool, displayWarn: bool, displayError: bool)

  /** `numSelectedLevels`: how many of the three toggles are on. */
  function NumSelectedLevels(t: LevelToggles): (n: nat)
    ensures n == (if t.displayInfo then 1 else 0) + (if t.displayWarn then 1 else 0) + (if t.displayError then 1 else 0)
    ensures n <= 3
  {
    var flags := [t.displayInfo, t.displayWarn, t.displayError];
    var on := (b: bool) => b;
    assert Js.Filter(flags[2..], on) == (if t.displayError then [true] else []) by {
      assert flags[2..][1..] == [];
    }
    assert Js.Filter(flags[1..], on) == (if t.displayWarn then [true] else []) + Js.Filter(flags[2..], on) by {
      assert flags[1..][1..] == flags[2..];
    }
    |Js.Filter(flags, on)|
  }

  /** The string a level compares equal to. */
  function LevelName(level: Level): string {
    match level
    case Info => "info"
    case Warn => "warn"
    case Error => "error"
  }

  /** The level toggle for `level` is on. */
  predicate LevelSelected(t: LevelToggles, level: Level) {
    || (t.displayInfo && LevelName(level) == "info")
    || (t.displayWarn && LevelName(level) == "warn")
    || (t.displayError && LevelName(level) == "error")
  }

  /** The strings the query is looked for in: message, level, event type and serialized payload. */
  function SearchFields<D, R>(registry: Registry<D, R>, log: LogEntry<D>, host: Host<D>): seq<string>
    requires log.eventType in registry.config
  {
    [ registry.GetEventMessage(log).value,
      LevelName(registry.GetEventLevel(log).value),
      log.eventType,
      host.stringify(log.data) ]
  }

  /** `searchQuery.some(q => q.toLowerCase().includes(query.toLowerCase()))` */
  predicate QueryMatches<D, R>(registry: Registry<D, R>, log: LogEntry<D>, query: string, host: Host<D>)
    requires log.eventType in registry.config
  {
    exists f | f in SearchFields(registry, log, host) :: Includes(host.lower(f), host.lower(query))
  }

  /** `shouldDisplay` for an entry whose event type the table holds. */
  predicate ShouldDisplay<D, R>(registry: Registry<D, R>, log: LogEntry<D>, query: string, t: LevelToggles, host: Host<D>) {
    && log.eventType in registry.config
    && QueryMatches(registry, log, query, host)
    && LevelSelected(t, registry.GetEventLevel(log).value)
  }

  /** The event type of the first entry, in list order, that the table does not hold. */
  function FirstUnregistered<D, R>(logs: seq<LogEntry<D>>, registry: Registry<D, R>): (k: Option<string>)
    ensures k.None? <==> forall e | e in logs :: e.eventType in registry.config
    ensures k.Some? ==> exists i | 0 <= i < |logs| ::
      && logs[i].eventType == k.value
      && k.value !in registry.config
      && forall j | 0 <= j < i :: logs[j].eventType in registry.config
  {
    if logs == [] then None
    else if logs[0].eventType !in registry.config then Some(logs[0].eventType)
    else
      var k := FirstUnregistered(logs[1..], registry);
      assert forall e | e in logs[1..] :: e in logs;
      assert k.Some? ==> exists i | 1 <= i < |logs| ::
        && logs[i].eventType == k.value
        && k.value !in registry.config
        && forall j | 0 <= j < i :: logs[j].eventType in registry.config;
      k
  }

  /**
   * `filteredLogs`: the entries that match the query and whose level is
   * selected, in list order. The predicate resolves each entry's message and
   * level, so an entry with an unknown event type makes the whole filter throw.
   */
  function FilteredLogs<D(==), R>(logs: seq<LogEntry<D>>, query: string, t: LevelToggles, registry: Registry<D, R>, host: Host<D>)
    : (r: Result<seq<LogEntry<D>>>)
    ensures r.UndefinedDefinition? <==> exists e | e in logs :: e.eventType !in registry.config
    ensures r.UndefinedDefinition? ==> exists i | 0 <= i < |logs| ::
      && logs[i].eventType == r.eventType
      && r.eventType !in registry.config
      && forall j | 0 <= j < i :: logs[j].eventType in registry.config
    ensures r.Ok? ==> IsSubsequence(r.value, logs)
    ensures r.Ok? ==> forall e | e in r.value :: e in logs && ShouldDisplay(registry, e, query, t, host)
    ensures r.Ok? ==> forall e | e in logs ::
      multiset(r.value)[e] == if ShouldDisplay(registry, e, query, t, host) then multiset(logs)[e] else 0
  {
    match FirstUnregistered(logs, registry)
    case Some(k) => UndefinedDefinition(k)
    case None =>
      var shown := (e: LogEntry<D>) => ShouldDisplay(registry, e, query, t, host);
      FilterIsSubsequence(logs, shown);
      FilterCountAll(logs, shown);
      Ok(Js.Filter(logs, shown))
  }

  /** With every toggle off, nothing is listed. */
  lemma NoLevelSelectedShowsNothing<D, R>(logs: seq<LogEntry<D>>, query: string, t: LevelToggles, registry: Registry<D, R>, host: Host<D>)
    requires NumSelectedLevels(t) == 0
    requires forall e | e in logs :: e.eventType in registry.config
    ensures FilteredLogs(logs, query, t, registry, host) == Ok([])
  {
    var shown := (e: LogEntry<D>) => ShouldDisplay(registry, e, query, t, host);
    FilterKeepsNone(logs, shown);
  }

  /** With an empty query and every toggle on, every entry is listed, in order. */
  lemma EmptyQueryAllLevelsShowsAll<D, R>(logs: seq<LogEntry<D>>, registry: Registry<D, R>, host: Host<D>)
    requires host.lower("") == ""
    requires forall e | e in logs :: e.eventType in registry.config
    ensures FilteredLogs(logs, "", LevelToggles(true, true, true), registry, host) == Ok(logs)
  {
    var t := LevelToggles(true, true, true);
    var shown := (e: LogEntry<D>) => ShouldDisplay(registry, e, "", t, host);
    forall e | e in logs ensures shown(e) {
      var fields := SearchFields(registry, e, host);
      IncludesEmpty(host.lower(fields[2]));
      assert fields[2] in fields;
    }
    FilterKeepsAll(logs, shown);
  }

  /** An entry the store's `filter` keeps passes the panel's query test too: the panel searches more fields. */
  lemma StoreMatchIsQueryMatch<D, R>(registry: Registry<D, R>, log: LogEntry<D>, query: string, host: Host<D>)
    requires log.eventType in registry.config
    requires Matches(log, host.lower(query), host)
    ensures QueryMatches(registry, log, query, host)
  {
    var fields := SearchFields(registry, log, host);
    assert fields[2] in fields && fields[3] in fields;
  }

  /**
   * Once an entry whose event type the table does not hold has been
   * appended, the panel's filter fails at that entry, whatever the rest of
   * the list, the query and the toggles are.
   */
  lemma AppendedUnregisteredEntryFails<D, R>(e: LogEntry<D>, logs: seq<LogEntry<D>>, query: string, t: LevelToggles, registry: Registry<D, R>, host: Host<D>)
    requires e.eventType !in registry.config
    ensures FilteredLogs([e] + logs, query, t, registry, host) == UndefinedDefinition(e.eventType)
  {
  }
}
