/**
 * The values the access logger reads and writes: a finished HTTP exchange
 * (with the timestamp and the URI already rendered as text), severity
 * levels, structured values, and the emission handed to the logging backend.
 */
module Exchanges {
  import opened Wrappers

  /** Severity levels of the logging facade, lowest first. */
  datatype Level = TRACE | DEBUG | INFO | WARN | ERROR

  /** A structured value attached to an emission: text, or a whole number. */
  datatype Value = Str(s: string) | Num(n: int)

  /** One structured key/value pair of an emission. */
  type KeyValue = (string, Value)

  /**
   * One finished HTTP exchange. `remote`, `principal` and `durationMs` are
   * nullable in the exchange record; `headers` maps a header name to its
   * ordered list of values.
   */
  datatype Exchange = Exchange(
    remote: Option<string>,
    principal: Option<string>,
    ts: string,
    requestMethod: string,
    uri: string,
    status: int,
    headers: map<string, seq<string>>,
    durationMs: Option<int>)

  /** What one `add` hands to the backend: the logger's name, the level, the text message and the key/values. */
  datatype Emission = Emission(logger: string, level: Level, message: string, kvs: seq<KeyValue>)

  /**
   * The first value of a header, looked up by its exact key; absent when the
   * key is missing or its list of values is empty.
   */
  function FirstHeader(headers: map<string, seq<string>>, name: string): Option<string>
  {
    if name in headers && |headers[name]| > 0 then Some(headers[name][0]) else None
  }
}
