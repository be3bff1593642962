/**
 * The event registry: from a table that maps each event type to its
 * definition, `createEventRegistry` builds a log store (newest entry first)
 * and three resolvers that look an entry's level, message and detail view up
 * in the table.
 *
 * The store's `logs` list is state that `appendLog` and `clear` replace, so
 * the store is a class; `filter` and the resolvers only read.
 */
module EventRegistry {
  import opened Js

  datatype Level = Info | Warn | Error

  datatype Source = System | Client | Server

  /** A definition's `message`: a literal string or a function of the payload. */
  datatype Message<!D> = Literal(text: string) | Format(format: D -> string)

  /**
   * One entry of the table. `render` produces the detail view (of type `R`)
   * and may be absent.
   */
  datatype Definition<!D, R> = Definition(level: Level, source: Source, message: Message<D>, render: Option<D -> R>)

  /** One log entry; `timestamp` is what `new Date()` gave when it was appended. */
  datatype LogEntry<D> = LogEntry(timestamp: int, eventType: string, source: Source, data: D)

  /** The host functions `filter` relies on: `toLowerCase` and `JSON.stringify`. */
  datatype Host<!D> = Host(lower: string -> string, stringify: D -> string)

  /**
   * The outcome of a resolver. Looking up an event type that the table does
   * not hold yields an undefined definition, and destructuring it throws.
   */
  datatype Result<T> = Ok(value: T) | UndefinedDefinition(eventType: string)

  /** `filter`'s test: the lower-cased query `q` occurs in the lower-cased event type or serialized payload. */
  predicate Matches<D>(entry: LogEntry<D>, q: string, host: Host<D>) {
    || Includes(host.lower(entry.eventType), q)
    || Includes(host.lower(host.stringify(entry.data)), q)
  }

  /** The three resolvers, closed over the table `config`. */
  datatype Registry<!D, R> = Registry(config: map<string, Definition<D, R>>) {

    /** `renderEventLog`: the definition's `render` applied to the payload, or undefined without one. */
    function RenderEventLog(log: LogEntry<D>): (r: Result<Option<R>>)
      ensures r.UndefinedDefinition? <==> log.eventType !in config
      ensures r.UndefinedDefinition? ==> r.eventType == log.eventType
      ensures r.Ok? ==> (r.value.Some? <==> config[log.eventType].render.Some?)
      ensures r.Ok? && r.value.Some? ==> r.value.value == config[log.eventType].render.value(log.data)
    {
      if log.eventType !in config then UndefinedDefinition(log.eventType)
      else
        match config[log.eventType].render
        case None => Ok(None)
        case Some(render) => Ok(Some(render(log.data)))
    }

    /** `getEventLevel`: the definition's `level`, whatever the payload. */
    function GetEventLevel(log: LogEntry<D>): (r: Result<Level>)
      ensures r.UndefinedDefinition? <==> log.eventType !in config
      ensures r.UndefinedDefinition? ==> r.eventType == log.eventType
      ensures r.Ok? ==> r.value == config[log.eventType].level
    {
      if log.eventType !in config then UndefinedDefinition(log.eventType)
      else Ok(config[log.eventType].level)
    }

    /** `getEventMessage`: the literal message, or the message function applied to the payload. */
    function GetEventMessage(log: LogEntry<D>): (r: Result<string>)
      ensures r.UndefinedDefinition? <==> log.eventType !in config
      ensures r.UndefinedDefinition? ==> r.eventType == log.eventType
      ensures r.Ok? && config[log.eventType].message.Literal? ==> r.value == config[log.eventType].message.text
      ensures r.Ok? && config[log.eventType].message.Format? ==> r.value == config[log.eventType].message.format(log.data)
    {
      if log.eventType !in config then UndefinedDefinition(log.eventType)
      else
        match config[log.eventType].message
        case Literal(text) => Ok(text)
        case Format(format) => Ok(format(log.data))
    }
  }

  /** The store `createEventRegistry` builds: the list of entries, newest first. */
  class LoggerStore<D(==)> {
    /** The keys of the table the store was built from. `appendLog` does not check against them. */
    const eventTypes: set<string>
    var logs: seq<LogEntry<D>>

    /** Every stored entry names an event type of the table. */
    ghost predicate Valid()
      reads this
    {
      forall e | e in logs :: e.eventType in eventTypes
    }

    constructor (eventTypes: set<string>)
      ensures this.eventTypes == eventTypes
      ensures logs == [] && Valid()
    {
      this.eventTypes := eventTypes;
      logs := [];
    }

    /**
     * `appendLog(type, data, source = "system")`: the new entry becomes the
     * first one and the previous entries follow unchanged. `now` is `new Date()`.
     */
    method AppendLog(eventType: string, data: D, source: Option<Source>, now: int)
      modifies this
      ensures logs == [LogEntry(now, eventType, source.GetOr(System), data)] + old(logs)
      ensures old(Valid()) && eventType in eventTypes ==> Valid()
      ensures eventType !in eventTypes ==> !Valid()
    {
      logs := [LogEntry(now, eventType, source.GetOr(System), data)] + logs;
    }

    /** `clear()`: no entries remain. */
    method Clear()
      modifies this
      ensures logs == [] && Valid()
    {
      logs := [];
    }

    /**
     * `filter(query)`: the entries whose event type or serialized payload
     * contains the query, ignoring case, in store order. Every copy of a
     * matching entry is kept and no copy of another one.
     */
    function Filter(query: string, host: Host<D>): (r: seq<LogEntry<D>>)
      reads this
      ensures IsSubsequence(r, logs)
      ensures forall e | e in logs :: multiset(r)[e] == if Matches(e, host.lower(query), host) then multiset(logs)[e] else 0
    {
      var q := host.lower(query);
      var keep := (e: LogEntry<D>) => Matches(e, q, host);
      FilterIsSubsequence(logs, keep);
      FilterCountAll(logs, keep);
      Js.Filter(logs, keep)
    }
  }

  /** `createEventRegistry(config)`: the resolvers over `config` and a fresh, empty store. */
  method CreateEventRegistry<D(==), R>(config: map<string, Definition<D, R>>)
    returns (registry: Registry<D, R>, logger: LoggerStore<D>)
    ensures registry.config == config
    ensures fresh(logger) && logger.logs == [] && logger.eventTypes == config.Keys && logger.Valid()
  {
    registry := Registry(config);
    logger := new LoggerStore(config.Keys);
  }

  /** An entry is kept by `filter` exactly when it matches the lower-cased query. */
  lemma FilterKeepsExactlyMatches<D>(store: LoggerStore<D>, query: string, host: Host<D>, e: LogEntry<D>)
    requires e in store.logs
    ensures e in store.Filter(query, host) <==> Matches(e, host.lower(query), host)
  {
    var r := store.Filter(query, host);
    assert multiset(r)[e] == if Matches(e, host.lower(query), host) then multiset(store.logs)[e] else 0;
  }

  /** With an empty query every entry is kept, in order. */
  lemma FilterEmptyQuery<D>(store: LoggerStore<D>, host: Host<D>)
    requires host.lower("") == ""
    ensures store.Filter("", host) == store.logs
  {
    var keep := (e: LogEntry<D>) => Matches(e, host.lower(""), host);
    forall e | e in store.logs ensures keep(e) {
      IncludesEmpty(host.lower(e.eventType));
    }
    FilterKeepsAll(store.logs, keep);
  }

  /** Filtering a cleared store gives nothing, whatever the query. */
  lemma FilterOfEmptyStore<D>(store: LoggerStore<D>, query: string, host: Host<D>)
    requires store.logs == []
    ensures store.Filter(query, host) == []
  {
  }

  /** On the entries of a store built from `registry`'s table, no resolver throws. */
  lemma StoredEntriesResolve<D, R>(store: LoggerStore<D>, registry: Registry<D, R>, e: LogEntry<D>)
    requires store.Valid() && store.eventTypes == registry.config.Keys
    requires e in store.logs
    ensures registry.GetEventLevel(e).Ok?
    ensures registry.GetEventMessage(e).Ok?
    ensures registry.RenderEventLog(e).Ok?
  {
  }

  /** The resolvers read only an entry's event type and payload, and the level reads only the event type. */
  lemma ResolversIgnoreTimestampAndSource<D, R>(registry: Registry<D, R>, a: LogEntry<D>, b: LogEntry<D>)
    requires a.eventType == b.eventType
    ensures registry.GetEventLevel(a) == registry.GetEventLevel(b)
    ensures a.data == b.data ==> registry.GetEventMessage(a) == registry.GetEventMessage(b)
    ensures a.data == b.data ==> registry.RenderEventLog(a) == registry.RenderEventLog(b)
  {
  }
}
