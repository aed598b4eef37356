/**
 * What an emission says about the exchange, stated against the fields of
 * the log line.
 */
module Emissions {
  import opened Wrappers
  import opened Exchanges
  import opened Strings
  import opened LogLine
  import opened AccessLog

  /**
   * With the text message on and no log customizer, the message is the
   * log line itself: the tokens of the carried fields joined by single
   * spaces, with no space before the first or after the last.
   */
  lemma PlainMessage(cfg: Config, enabled: Level -> bool, ex: Exchange)
    requires !cfg.emptyLogMessage && cfg.logCustomizer.None?
    requires enabled(cfg.level) && cfg.filter(ex)
    ensures Emit(cfg, enabled, ex).Some?
    ensures Emit(cfg, enabled, ex).value.message == Line(Pairs(Fields(ex)))
    ensures Emit(cfg, enabled, ex).value.message != []
    ensures !IsSpace(Emit(cfg, enabled, ex).value.message[0])
    ensures !IsSpace(Emit(cfg, enabled, ex).value.message[|Emit(cfg, enabled, ex).value.message| - 1])
  {
    var fs := Fields(ex);
    FieldsEnds(ex);
    TrimmedBufferIsLine(fs);
    LineEnds(fs);
    assert Emit(cfg, enabled, ex) == Some(Finish(cfg, ex, Buffer(fs), KeyValues(cfg, fs)));
  }

  /**
   * A log customizer that appends text to the buffer: the text follows the
   * log line after one space (the buffer's own trailing space), and only
   * the customizer's trailing spaces are trimmed away.
   */
  lemma CustomizedMessage(cfg: Config, enabled: Level -> bool, ex: Exchange, extra: string)
    requires !cfg.emptyLogMessage && cfg.logCustomizer.Some?
    requires cfg.logCustomizer.value(Buffer(Fields(ex)), ex) == Buffer(Fields(ex)) + extra
    requires enabled(cfg.level) && cfg.filter(ex)
    ensures Emit(cfg, enabled, ex).Some?
    ensures Emit(cfg, enabled, ex).value.message == Line(Pairs(Fields(ex))) + TrimEnd(" " + extra)
  {
    FieldsEnds(ex);
    TrimmedBuffer(Fields(ex), extra);
  }

  /** With the text message suppressed and no log customizer, the message is empty. */
  lemma SuppressedMessage(cfg: Config, enabled: Level -> bool, ex: Exchange)
    requires cfg.emptyLogMessage && cfg.logCustomizer.None?
    requires enabled(cfg.level) && cfg.filter(ex)
    ensures Emit(cfg, enabled, ex).Some? && Emit(cfg, enabled, ex).value.message == ""
  {
    assert Trim("") == "";
  }

  /**
   * With key/values attached and no event customizer, the key/values are
   * the carried fields in log-line order, each under its key with its raw
   * value: a key appears exactly when the exchange carries that field.
   */
  lemma KeyValuesMirrorFields(cfg: Config, enabled: Level -> bool, ex: Exchange)
    requires cfg.addKeyValues && cfg.eventCustomizer.None?
    requires enabled(cfg.level) && cfg.filter(ex)
    ensures Emit(cfg, enabled, ex).Some?
    ensures Emit(cfg, enabled, ex).value.kvs == Pairs(Fields(ex))
    ensures forall k, v :: Extract(ex, k) == Some(v) ==> (Name(k), v) in Emit(cfg, enabled, ex).value.kvs
    ensures forall kv :: kv in Emit(cfg, enabled, ex).value.kvs ==>
      exists k :: kv.0 == Name(k) && Extract(ex, k) == Some(kv.1)
  {
    PairsOfFields(ex);
  }

  /** With key/values off and no event customizer, no pair is attached. */
  lemma NoKeyValues(cfg: Config, enabled: Level -> bool, ex: Exchange)
    requires !cfg.addKeyValues && cfg.eventCustomizer.None?
    requires enabled(cfg.level) && cfg.filter(ex)
    ensures Emit(cfg, enabled, ex).Some? && Emit(cfg, enabled, ex).value.kvs == []
  {
  }

  /**
   * With both the text message and the key/values on and no customizer,
   * the message is exactly the key/values rendered as tokens and joined
   * by single spaces.
   */
  lemma MessageRendersKeyValues(cfg: Config, enabled: Level -> bool, ex: Exchange)
    requires !cfg.emptyLogMessage && cfg.logCustomizer.None?
    requires cfg.addKeyValues && cfg.eventCustomizer.None?
    requires enabled(cfg.level) && cfg.filter(ex)
    ensures Emit(cfg, enabled, ex).Some?
    ensures Emit(cfg, enabled, ex).value.message == Line(Emit(cfg, enabled, ex).value.kvs)
  {
    PlainMessage(cfg, enabled, ex);
  }

  /**
   * A configuration the constructor accepts never emits a blank entry
   * when no customizer interferes: there is a message or there are
   * key/values.
   */
  lemma NeverBlank(cfg: Config, enabled: Level -> bool, ex: Exchange)
    requires ValidConfig(cfg) && cfg.logCustomizer.None? && cfg.eventCustomizer.None?
    requires enabled(cfg.level) && cfg.filter(ex)
    ensures Emit(cfg, enabled, ex).Some?
    ensures Emit(cfg, enabled, ex).value.message != [] || Emit(cfg, enabled, ex).value.kvs != []
  {
    if cfg.emptyLogMessage {
      FieldsEnds(ex);
    } else {
      PlainMessage(cfg, enabled, ex);
    }
  }

  /**
   * The combination the constructor refuses would emit an entry with
   * neither a message nor key/values.
   */
  lemma RefusedCombinationIsBlank(cfg: Config, enabled: Level -> bool, ex: Exchange)
    requires cfg.emptyLogMessage && !cfg.addKeyValues
    requires cfg.logCustomizer.None? && cfg.eventCustomizer.None?
    requires enabled(cfg.level) && cfg.filter(ex)
    ensures !ValidConfig(cfg)
    ensures Emit(cfg, enabled, ex) == Some(Emission(cfg.loggerName, cfg.level, "", []))
  {
    assert Trim("") == "";
  }

  /**
   * Whether key/values are attached does not change the message, and
   * whether the message is suppressed does not change the key/values.
   */
  lemma FlagsIndependent(cfg: Config, enabled: Level -> bool, ex: Exchange)
    requires enabled(cfg.level) && cfg.filter(ex)
    ensures Emit(cfg.(addKeyValues := !cfg.addKeyValues), enabled, ex).value.message
      == Emit(cfg, enabled, ex).value.message
    ensures Emit(cfg.(emptyLogMessage := !cfg.emptyLogMessage), enabled, ex).value.kvs
      == Emit(cfg, enabled, ex).value.kvs
  {
    var fs := Fields(ex);
    var withPairs, withText := cfg.(addKeyValues := !cfg.addKeyValues), cfg.(emptyLogMessage := !cfg.emptyLogMessage);
    assert Text(withPairs, fs) == Text(cfg, fs);
    assert Emit(withPairs, enabled, ex) == Some(Finish(withPairs, ex, Text(cfg, fs), KeyValues(withPairs, fs)));
    assert KeyValues(withText, fs) == KeyValues(cfg, fs);
    assert Emit(withText, enabled, ex) == Some(Finish(withText, ex, Text(withText, fs), KeyValues(cfg, fs)));
  }
}
