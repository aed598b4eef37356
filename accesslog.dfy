/**
 * The access logger: an immutable configuration and `Add`, which turns one
 * finished HTTP exchange into at most one emission for the logging backend.
 */
module AccessLog {
  import opened Wrappers
  import opened Exchanges
  import opened Strings
  import opened LogLine

  /** Edits the text buffer; it may append to it or rewrite it. */
  type LogCustomizer = (string, Exchange) -> string

  /** Edits the key/values of the emission under construction. */
  type EventCustomizer = (seq<KeyValue>, Exchange) -> seq<KeyValue>

  /** The configuration of a logger, once its defaults are filled in. */
  datatype Config = Config(
    filter: Exchange -> bool,
    logCustomizer: Option<LogCustomizer>,
    loggerName: string,
    level: Level,
    addKeyValues: bool,
    emptyLogMessage: bool,
    eventCustomizer: Option<EventCustomizer>)

  /** A text message may be suppressed only when the key/values are attached instead. */
  predicate ValidConfig(cfg: Config)
  {
    cfg.emptyLogMessage ==> cfg.addKeyValues
  }

  const EmptyLogMessageError := "'emptyLogMessage' can be true only when 'addKeyValues' is true."

  const DefaultLoggerName := "accesslog"

  /** The filter used when none is configured. */
  function AcceptAll(ex: Exchange): bool
  {
    true
  }

  /**
   * The configuration a logger is built with: the flag combination
   * `emptyLogMessage && !addKeyValues` is refused with its error message;
   * otherwise a missing filter accepts every exchange, a missing logger
   * name is "accesslog" and a missing level is INFO.
   */
  function Configure(
    filter: Option<Exchange -> bool>, logCustomizer: Option<LogCustomizer>, loggerName: Option<string>,
    level: Option<Level>, addKeyValues: bool, emptyLogMessage: bool, eventCustomizer: Option<EventCustomizer>)
    : (r: Result<Config, string>)
    ensures r.Failure? <==> emptyLogMessage && !addKeyValues
    ensures r.Failure? ==> r.error == EmptyLogMessageError
    ensures r.Success? ==> ValidConfig(r.value)
    ensures r.Success? && filter.None? ==> forall ex :: r.value.filter(ex)
    ensures r.Success? && filter.Some? ==> r.value.filter == filter.value
    ensures r.Success? ==> r.value.loggerName == (if loggerName.Some? then loggerName.value else "accesslog")
    ensures r.Success? ==> r.value.level == (if level.Some? then level.value else INFO)
    ensures r.Success? ==> r.value.logCustomizer == logCustomizer && r.value.eventCustomizer == eventCustomizer
    ensures r.Success? ==> r.value.addKeyValues == addKeyValues && r.value.emptyLogMessage == emptyLogMessage
  {
    if emptyLogMessage && !addKeyValues then Failure(EmptyLogMessageError)
    else
      Success(Config(
        if filter.Some? then filter.value else AcceptAll,
        logCustomizer,
        if loggerName.Some? then loggerName.value else DefaultLoggerName,
        if level.Some? then level.value else INFO,
        addKeyValues,
        emptyLogMessage,
        eventCustomizer))
  }

  /**
   * What one exchange makes a logger emit, given which levels the backend
   * has enabled: nothing when the level is disabled or the filter refuses
   * the exchange; otherwise the trimmed text buffer (the field tokens unless
   * the message is suppressed, then whatever the log customizer made of
   * it) and the key/values (the fields' raw values when attached, then
   * whatever the event customizer made of them).
   */
  function Emit(cfg: Config, enabled: Level -> bool, ex: Exchange): (r: Option<Emission>)
    ensures r.Some? <==> enabled(cfg.level) && cfg.filter(ex)
    ensures r.Some? ==> r.value.logger == cfg.loggerName && r.value.level == cfg.level
  {
    if !enabled(cfg.level) || !cfg.filter(ex) then None
    else Some(Finish(cfg, ex, Text(cfg, Fields(ex)), KeyValues(cfg, Fields(ex))))
  }

  /** The text buffer once the given fields are appended: empty when the message is suppressed. */
  function Text(cfg: Config, fs: seq<Field>): string
  {
    if cfg.emptyLogMessage then "" else Buffer(fs)
  }

  /** The key/values once the given fields are added: none unless they are attached. */
  function KeyValues(cfg: Config, fs: seq<Field>): seq<KeyValue>
  {
    if cfg.addKeyValues then Pairs(fs) else []
  }

  /** The emission made from the filled buffers: both customizers applied, then the text trimmed. */
  function Finish(cfg: Config, ex: Exchange, text: string, kvs: seq<KeyValue>): Emission
  {
    var text' := if cfg.logCustomizer.Some? then cfg.logCustomizer.value(text, ex) else text;
    var kvs' := if cfg.eventCustomizer.Some? then cfg.eventCustomizer.value(kvs, ex) else kvs;
    Emission(cfg.loggerName, cfg.level, Trim(text'), kvs')
  }

  class AccessLogger {
    const filter: Exchange -> bool
    const logCustomizer: Option<LogCustomizer>
    const loggerName: string
    const level: Level
    const addKeyValues: bool
    const emptyLogMessage: bool
    const eventCustomizer: Option<EventCustomizer>

    predicate Valid()
    {
      ValidConfig(Settings())
    }

    function Settings(): Config
    {
      Config(filter, logCustomizer, loggerName, level, addKeyValues, emptyLogMessage, eventCustomizer)
    }

    /** Fills in the defaults; the flag combination has been checked by the caller. */
    constructor (
      filter: Option<Exchange -> bool>, logCustomizer: Option<LogCustomizer>, loggerName: Option<string>,
      level: Option<Level>, addKeyValues: bool, emptyLogMessage: bool, eventCustomizer: Option<EventCustomizer>)
      requires emptyLogMessage ==> addKeyValues
      ensures Valid()
      ensures Configure(filter, logCustomizer, loggerName, level, addKeyValues, emptyLogMessage, eventCustomizer)
        == Success(Settings())
    {
      var accepts: Exchange -> bool := if filter.Some? then filter.value else AcceptAll;
      this.filter := accepts;
      this.logCustomizer := logCustomizer;
      this.loggerName := if loggerName.Some? then loggerName.value else DefaultLoggerName;
      this.level := if level.Some? then level.value else INFO;
      this.addKeyValues := addKeyValues;
      this.emptyLogMessage := emptyLogMessage;
      this.eventCustomizer := eventCustomizer;
    }

    /** Builds a logger, refusing a suppressed message without key/values as the constructor's exception does. */
    static method Build(
      filter: Option<Exchange -> bool>, logCustomizer: Option<LogCustomizer>, loggerName: Option<string>,
      level: Option<Level>, addKeyValues: bool, emptyLogMessage: bool, eventCustomizer: Option<EventCustomizer>)
      returns (r: Result<AccessLogger, string>)
      ensures r.Failure? ==>
        Configure(filter, logCustomizer, loggerName, level, addKeyValues, emptyLogMessage, eventCustomizer)
          == Failure(r.error)
      ensures r.Success? ==>
        fresh(r.value) && r.value.Valid()
        && Configure(filter, logCustomizer, loggerName, level, addKeyValues, emptyLogMessage, eventCustomizer)
          == Success(r.value.Settings())
    {
      if emptyLogMessage && !addKeyValues {
        return Failure(EmptyLogMessageError);
      }
      var logger := new AccessLogger(filter, logCustomizer, loggerName, level, addKeyValues, emptyLogMessage, eventCustomizer);
      return Success(logger);
    }

    /** A logger with the given filter and every other setting left at its default. */
    static method WithFilter(filter: Option<Exchange -> bool>) returns (logger: AccessLogger)
      ensures fresh(logger) && logger.Valid()
      ensures Configure(filter, None, None, None, false, false, None) == Success(logger.Settings())
    {
      logger := new AccessLogger(filter, None, None, None, false, false, None);
    }

    /** A logger with every setting at its default. */
    static method Default() returns (logger: AccessLogger)
      ensures fresh(logger) && logger.Valid()
      ensures Configure(None, None, None, None, false, false, None) == Success(logger.Settings())
    {
      logger := WithFilter(None);
    }

    /** The logger keeps no exchanges: listing them always gives nothing. */
    method FindAll() returns (r: seq<Exchange>)
      ensures r == []
    {
      r := [];
    }

    /** The remote address block: the address, unquoted, when it is known. */
    method AppendRemote(log: string, kvs: seq<KeyValue>, ghost fs: seq<Field>, ex: Exchange)
      returns (log': string, kvs': seq<KeyValue>)
      requires log == Text(Settings(), fs) && kvs == KeyValues(Settings(), fs)
      ensures log' == Text(Settings(), fs + Pick(ex, Remote)) && kvs' == KeyValues(Settings(), fs + Pick(ex, Remote))
    {
      log', kvs' := log, kvs;
      if ex.remote.Some? {
        var remoteAddress := ex.remote.value;
        if !emptyLogMessage {
          log' := log' + "remote=" + remoteAddress + " ";
        }
        if addKeyValues {
          kvs' := kvs' + [("remote", Str(remoteAddress))];
        }
        Append(fs, Field(Remote, Str(remoteAddress)));
      } else {
        assert fs + Pick(ex, Remote) == fs;
      }
    }

    /** The principal block: the principal's name, quoted, when there is a principal. */
    method AppendUser(log: string, kvs: seq<KeyValue>, ghost fs: seq<Field>, ex: Exchange)
      returns (log': string, kvs': seq<KeyValue>)
      requires log == Text(Settings(), fs) && kvs == KeyValues(Settings(), fs)
      ensures log' == Text(Settings(), fs + Pick(ex, User)) && kvs' == KeyValues(Settings(), fs + Pick(ex, User))
    {
      log', kvs' := log, kvs;
      if ex.principal.Some? {
        var user := ex.principal.value;
        if !emptyLogMessage {
          log' := log' + "user=\"" + user + "\" ";
        }
        if addKeyValues {
          kvs' := kvs' + [("user", Str(user))];
        }
        Append(fs, Field(User, Str(user)));
      } else {
        assert fs + Pick(ex, User) == fs;
      }
    }

    /** The fields every exchange has: the timestamp, the method, the URI and the status code. */
    method AppendRequest(log: string, kvs: seq<KeyValue>, ghost fs: seq<Field>, ex: Exchange)
      returns (log': string, kvs': seq<KeyValue>)
      requires log == Text(Settings(), fs) && kvs == KeyValues(Settings(), fs)
      ensures log' == Text(Settings(), fs + Pick(ex, Ts) + Pick(ex, Method) + Pick(ex, Url) + Pick(ex, ResponseCode)) && kvs' == KeyValues(Settings(), fs + Pick(ex, Ts) + Pick(ex, Method) + Pick(ex, Url) + Pick(ex, ResponseCode))
    {
      log', kvs' := log, kvs;
      if !emptyLogMessage {
        log' := log' + "ts=\"" + ex.ts + "\" ";
        log' := log' + "method=" + ex.requestMethod + " ";
        log' := log' + "url=\"" + ex.uri + "\" ";
        log' := log' + "response_code=" + Decimal(ex.status) + " ";
      }
      if addKeyValues {
        kvs' := kvs' + [("ts", Str(ex.ts))] + [("method", Str(ex.requestMethod))]
          + [("url", Str(ex.uri))] + [("response_code", Num(ex.status))];
      }
      AppendRequired(fs, ex);
    }

    /** The referer block: the first value of the "referer" header, quoted, when the header has one; a missing header counts as an empty list. */
    method AppendReferer(log: string, kvs: seq<KeyValue>, ghost fs: seq<Field>, ex: Exchange)
      returns (log': string, kvs': seq<KeyValue>)
      requires log == Text(Settings(), fs) && kvs == KeyValues(Settings(), fs)
      ensures log' == Text(Settings(), fs + Pick(ex, Referer)) && kvs' == KeyValues(Settings(), fs + Pick(ex, Referer))
    {
      log', kvs' := log, kvs;
      var referer := if "referer" in ex.headers then ex.headers["referer"] else [];
      if |referer| > 0 {
        var referer0 := referer[0];
        if !emptyLogMessage {
          log' := log' + "referer=\"" + referer0 + "\" ";
        }
        if addKeyValues {
          kvs' := kvs' + [("referer", Str(referer0))];
        }
        Append(fs, Field(Referer, Str(referer0)));
      } else {
        assert fs + Pick(ex, Referer) == fs;
      }
    }

    /** The user agent block: the first value of the "user-agent" header, quoted, when the header has one. */
    method AppendUserAgent(log: string, kvs: seq<KeyValue>, ghost fs: seq<Field>, ex: Exchange)
      returns (log': string, kvs': seq<KeyValue>)
      requires log == Text(Settings(), fs) && kvs == KeyValues(Settings(), fs)
      ensures log' == Text(Settings(), fs + Pick(ex, UserAgent)) && kvs' == KeyValues(Settings(), fs + Pick(ex, UserAgent))
    {
      log', kvs' := log, kvs;
      var userAgent := if "user-agent" in ex.headers then ex.headers["user-agent"] else [];
      if |userAgent| > 0 {
        var userAgent0 := userAgent[0];
        if !emptyLogMessage {
          log' := log' + "user_agent=\"" + userAgent0 + "\" ";
        }
        if addKeyValues {
          kvs' := kvs' + [("user_agent", Str(userAgent0))];
        }
        Append(fs, Field(UserAgent, Str(userAgent0)));
      } else {
        assert fs + Pick(ex, UserAgent) == fs;
      }
    }

    /** The duration block: the time taken in milliseconds, unquoted, when it is known. */
    method AppendDuration(log: string, kvs: seq<KeyValue>, ghost fs: seq<Field>, ex: Exchange)
      returns (log': string, kvs': seq<KeyValue>)
      requires log == Text(Settings(), fs) && kvs == KeyValues(Settings(), fs)
      ensures log' == Text(Settings(), fs + Pick(ex, Duration)) && kvs' == KeyValues(Settings(), fs + Pick(ex, Duration))
    {
      log', kvs' := log, kvs;
      if ex.durationMs.Some? {
        var duration := ex.durationMs.value;
        if !emptyLogMessage {
          log' := log' + "duration=" + Decimal(duration) + " ";
        }
        if addKeyValues {
          kvs' := kvs' + [("duration", Num(duration))];
        }
        Append(fs, Field(Duration, Num(duration)));
      } else {
        assert fs + Pick(ex, Duration) == fs;
      }
    }

    /**
     * Logs one exchange: nothing when `enabled` says the level is off or
     * the filter refuses the exchange; otherwise the emission `Emit`
     * describes, built block by block, in the order of the log line, into
     * a text buffer and a key/value list.
     */
    method Add(ex: Exchange, enabled: Level -> bool) returns (r: Option<Emission>)
      ensures r == Emit(Settings(), enabled, ex)
    {
      if !enabled(level) {
        return None;
      }
      if !filter(ex) {
        return None;
      }
      var log := "";
      var kvs: seq<KeyValue> := [];
      ghost var fs: seq<Field> := [];
      log, kvs := AppendRemote(log, kvs, fs, ex);
      fs := fs + Pick(ex, Remote);
      log, kvs := AppendUser(log, kvs, fs, ex);
      fs := fs + Pick(ex, User);
      log, kvs := AppendRequest(log, kvs, fs, ex);
      fs := fs + Pick(ex, Ts) + Pick(ex, Method) + Pick(ex, Url) + Pick(ex, ResponseCode);
      log, kvs := AppendReferer(log, kvs, fs, ex);
      fs := fs + Pick(ex, Referer);
      log, kvs := AppendUserAgent(log, kvs, fs, ex);
      fs := fs + Pick(ex, UserAgent);
      log, kvs := AppendDuration(log, kvs, fs, ex);
      fs := fs + Pick(ex, Duration);
      FieldsUnfold(ex);
      assert fs == Fields(ex);

      if logCustomizer.Some? {
        log := logCustomizer.value(log, ex);
      }
      if eventCustomizer.Some? {
        kvs := eventCustomizer.value(kvs, ex);
      }
      return Some(Emission(loggerName, level, Trim(log), kvs));
    }
  }
}
