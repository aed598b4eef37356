# access-logger in Dafny

A model of `AccessLogger`, the Spring Boot `HttpExchangeRepository` that
writes one log entry per finished HTTP exchange instead of storing it.

The model has these parts:

- `Exchanges`: the exchange as the logger reads it. That is the remote address, the principal's name, the timestamp, the method, the URI, the status code, the request headers and the elapsed time. It also holds the emission handed to the logging backend: logger name, level, message and key/values.
- `LogLine`: the nine fields a log entry can carry, in their fixed order: remote, user, ts, method, url, response_code, referer, user_agent, duration. It defines which of them an exchange carries, how each is spelled in the text buffer (quoted or not), the pair each contributes to the key/values, and the log line they make together.
- `Strings`: Java's `String.trim` and the decimal rendering `StringBuilder.append` uses for `int` and `long`.
- `AccessLog`: the configuration with its defaults and its one refused flag combination, and `Emit`, the specification of what `add` emits. It also holds the class `AccessLogger`, whose `Add` follows the source block by block and is proved to emit exactly `Emit`.
- `Emissions`: what an emission says about the exchange. This covers the plain message, the message with a log customizer, the suppressed message, the key/values against the carried fields, and why the refused combination is refused.
- `Scenarios`: the repository's test cases, stated as lemmas about `Emit`.

Two details follow the code exactly:

- The remote address is written unquoted (`remote=127.0.0.1`), as `add` appends it.
- Header lookup is by the exact key `referer` or `user-agent`, as `Map.get` does. It is not case-insensitive.

## Model

| member | source | states |
|---|---|---|
| AccessLog.Configure | src/main/java/am/ik/accesslogger/AccessLogger.java:60-74 | a logger configuration fails, with the constructor's message, exactly when the message is suppressed without key/values; otherwise a missing filter accepts every exchange, a missing name is "accesslog", a missing level is INFO, and the flags and customizers are kept |
| AccessLog.AccessLogger.constructor | src/main/java/am/ik/accesslogger/AccessLogger.java:67-73 | the new logger's settings are the defaults-filled configuration and satisfy the flag invariant |
| AccessLog.AccessLogger.Build | src/main/java/am/ik/accesslogger/AccessLogger.java:60-74 | building fails with the error exactly when the configuration is refused, and otherwise yields a fresh logger with that configuration |
| AccessLog.AccessLogger.WithFilter | src/main/java/am/ik/accesslogger/AccessLogger.java:76-78 | the filter-only constructor gives the given filter with every other setting at its default |
| AccessLog.AccessLogger.Default | src/main/java/am/ik/accesslogger/AccessLogger.java:80-82 | the no-argument constructor gives every setting at its default |
| AccessLog.AccessLogger.FindAll | src/main/java/am/ik/accesslogger/AccessLogger.java:84-87 | the repository keeps nothing: the listing is always empty |
| AccessLog.Emit | src/main/java/am/ik/accesslogger/AccessLogger.java:89-172 | an entry is emitted exactly when the level is enabled and the filter accepts the exchange, under the logger's name and level |
| AccessLog.AccessLogger.Add | src/main/java/am/ik/accesslogger/AccessLogger.java:89-172 | adding an exchange emits exactly what `Emit` specifies for the logger's settings |
| AccessLog.AccessLogger.AppendRemote | src/main/java/am/ik/accesslogger/AccessLogger.java:104-113 | the remote block extends the text buffer and the key/values by the remote field exactly when the address is known |
| AccessLog.AccessLogger.AppendUser | src/main/java/am/ik/accesslogger/AccessLogger.java:114-122 | the principal block extends both by the user field exactly when there is a principal |
| AccessLog.AccessLogger.AppendRequest | src/main/java/am/ik/accesslogger/AccessLogger.java:123-134 | the unconditional block extends both by ts, method, url and response_code |
| AccessLog.AccessLogger.AppendReferer | src/main/java/am/ik/accesslogger/AccessLogger.java:136-145 | the referer block extends both by the first referer value exactly when that header has a value |
| AccessLog.AccessLogger.AppendUserAgent | src/main/java/am/ik/accesslogger/AccessLogger.java:146-155 | the user-agent block extends both by the first user-agent value exactly when that header has a value |
| AccessLog.AccessLogger.AppendDuration | src/main/java/am/ik/accesslogger/AccessLogger.java:156-164 | the duration block extends both by the elapsed milliseconds exactly when the time taken is known |
| Strings.Trim | src/main/java/am/ik/accesslogger/AccessLogger.java:171 | the trimmed message has no whitespace at either end, is empty exactly when the text is all whitespace, and leaves an already trimmed text unchanged |
| Strings.Decimal | src/main/java/am/ik/accesslogger/AccessLogger.java:127 | a rendered status code or duration ends in a digit and starts with a minus sign exactly when it is negative |
| Strings.DecimalRoundTrip | src/main/java/am/ik/accesslogger/AccessLogger.java:159 | reading a rendered number back gives the number |
| LogLine.FieldsCharacterized | src/main/java/am/ik/accesslogger/AccessLogger.java:104-164 | the fields of an exchange are exactly those it carries, each with its raw value, in log order and none twice |
| LogLine.FieldsUnfold | src/main/java/am/ik/accesslogger/AccessLogger.java:104-164 | the fields are the nine optional picks concatenated in the order of the source's blocks |
| LogLine.FieldsEnds | src/main/java/am/ik/accesslogger/AccessLogger.java:123-128 | every exchange has at least four fields and its last field ends in a quote or a digit |
| LogLine.TokenQuoting | src/main/java/am/ik/accesslogger/AccessLogger.java:108-159 | user, ts, url, referer and user_agent values are quoted in the text; remote, method, response_code and duration values are not |
| LogLine.Append | src/main/java/am/ik/accesslogger/AccessLogger.java:108-162 | appending one field adds its token and one space to the buffer and its key with its raw value to the key/values |
| LogLine.AppendRequired | src/main/java/am/ik/accesslogger/AccessLogger.java:123-134 | the four fields every exchange carries add their tokens and pairs in the source's order |
| LogLine.PairsOfFields | src/main/java/am/ik/accesslogger/AccessLogger.java:110-163 | the key/values hold one pair for each carried field under its key with its raw value, and no other pair |
| LogLine.BufferIsLine | src/main/java/am/ik/accesslogger/AccessLogger.java:104-164 | the buffer is the space-joined log line followed by one space |
| LogLine.TrimmedBuffer | src/main/java/am/ik/accesslogger/AccessLogger.java:165-171 | trimming the buffer with appended text gives the log line, then the appended text after one space without its trailing whitespace |
| LogLine.TrimmedBufferIsLine | src/main/java/am/ik/accesslogger/AccessLogger.java:171 | trimming the buffer alone gives exactly the log line |
| Emissions.PlainMessage | src/main/java/am/ik/accesslogger/AccessLogger.java:104-171 | without suppression or log customizer, the message is the log line: non-empty, with no space at either end |
| Emissions.CustomizedMessage | src/main/java/am/ik/accesslogger/AccessLogger.java:165-171 | a log customizer that appends text gets it after the line and one space, with only its trailing whitespace trimmed |
| Emissions.SuppressedMessage | src/main/java/am/ik/accesslogger/AccessLogger.java:107-159 | with the message suppressed and no log customizer, the message is empty |
| Emissions.KeyValuesMirrorFields | src/main/java/am/ik/accesslogger/AccessLogger.java:110-163 | with key/values attached and no event customizer, a key appears exactly when the exchange carries that field, with its raw value |
| Emissions.NoKeyValues | src/main/java/am/ik/accesslogger/AccessLogger.java:110-163 | with key/values off and no event customizer, no pair is attached |
| Emissions.MessageRendersKeyValues | src/main/java/am/ik/accesslogger/AccessLogger.java:104-171 | with both on and no customizer, the message is the key/values rendered as tokens and joined by spaces |
| Emissions.NeverBlank | src/main/java/am/ik/accesslogger/AccessLogger.java:64-66 | an accepted configuration without customizers never emits an entry with neither message nor key/values |
| Emissions.RefusedCombinationIsBlank | src/main/java/am/ik/accesslogger/AccessLogger.java:64-66 | the refused combination would emit an entry with neither message nor key/values |
| Emissions.FlagsIndependent | src/main/java/am/ik/accesslogger/AccessLogger.java:104-164 | attaching key/values does not change the message, and suppressing the message does not change the key/values |
| Scenarios.DefaultEntry | src/test/java/am/ik/accesslogger/AccessLoggerTest.java:43-59 | the default logger emits the sample's line under "accesslog" at INFO |
| Scenarios.CustomizedEntry | src/test/java/am/ik/accesslogger/AccessLoggerTest.java:61-80 | a log customizer appending the request id puts it after the line and one space |
| Scenarios.DebugEntry | src/test/java/am/ik/accesslogger/AccessLoggerTest.java:82-98 | at level DEBUG the entry is emitted at DEBUG |
| Scenarios.DebugDisabled | src/main/java/am/ik/accesslogger/AccessLogger.java:91-93 | nothing is emitted when the backend disables the logger's level |
| Scenarios.LoggerNameEntry | src/test/java/am/ik/accesslogger/AccessLoggerTest.java:100-116 | a logger named "ACCESS_LOG" emits under that name |
| Scenarios.KeyValuesEntry | src/test/java/am/ik/accesslogger/AccessLoggerTest.java:118-141 | with key/values, the sample's seven fields are attached with their raw values |
| Scenarios.RefererEntry | src/test/java/am/ik/accesslogger/AccessLoggerTest.java:143-167 | a referer comes after response_code and before user_agent, in the text and in the key/values |
| Scenarios.PrincipalEntry | src/test/java/am/ik/accesslogger/AccessLoggerTest.java:169-193 | a principal's user comes right after remote, in the text and in the key/values |
| Scenarios.SuppressedEntry | src/test/java/am/ik/accesslogger/AccessLoggerTest.java:195-214 | with the message suppressed, the message is empty and the key/values are all there |
| Scenarios.RefusedEntry | src/test/java/am/ik/accesslogger/AccessLoggerTest.java:216-222 | suppressing the message without key/values is refused with the constructor's message |
| Scenarios.EventCustomizedEntry | src/test/java/am/ik/accesslogger/AccessLoggerTest.java:224-249 | an event customizer adding the request id adds one pair after the fields' pairs |

## Left out

- The logging backend (SLF4J and its JSON encoder) is not modelled. Whether the logger's level is enabled is a parameter of `Emit` and `Add`, and the emission is the value handed to the backend.
- The Spring type `HttpExchange` and the JDK types `Instant`, `URI` and `Duration` are replaced by plain values. The timestamp and the URI are given as the text their `toString` produces, and the elapsed time is given as whole milliseconds, the result of `toMillis`.
- The typed values in the key/values are simplified: the timestamp and the URI are attached as text, while the backend receives `Instant` and `URI` objects.
- The customizers are pure functions. The log customizer returns the new buffer instead of editing a `StringBuilder`. The event customizer maps the key/values to new key/values; it cannot change the level, the logger or the message as a `LoggingEventBuilder` could.
- A principal with a null name and null entries in a header list are not modelled. Names and header values are always strings.
- `int` and `long` widths are not enforced on the status code and the duration. They are only rendered, so no overflow arises.
- AccessLog.AccessLogger.constructor: requires the accepted flag combination rather than throwing. The exception is modelled by `Build`'s failure result.
- AccessLog.AccessLogger.Add: the `StringBuilder` and the `LoggingEventBuilder` are values threaded through one method per source block, not mutable objects. The blocks are the same, in the same order.
- The builder class generated for the `@Builder` constructor is not part of this model. Its optional arguments appear as `Option` parameters of `Configure` and `Build`.
- Concurrent calls to `add` are not modelled. The logger's settings are constant, so each call is independent.
