/**
 * The exchanges of the logger's own examples, and what each configuration
 * emits for them: the expected entries written token by token.
 */
module Scenarios {
  import opened Wrappers
  import opened Exchanges
  import opened Strings
  import opened LogLine
  import opened AccessLog
  import opened Emissions

  /** A backend that has every level enabled. */
  function AllEnabled(l: Level): bool
  {
    true
  }

  /** The sample exchange: GET https://example.com from 127.0.0.1, status 200, one second. */
  function Sample(principal: Option<string>, headers: map<string, seq<string>>): Exchange
  {
    Exchange(Some("127.0.0.1"), principal, "2024-05-16T00:00:00Z", "GET", "https://example.com", 200, headers, Some(1000))
  }

  /** Request headers of the samples: a user agent, and then a request id or a referer. */
  const Plain: map<string, seq<string>> := map["user-agent" := ["mock"]]
  const WithRequestId: map<string, seq<string>> := map["user-agent" := ["mock"], "x-request-id" := ["xyz"]]
  const WithReferer: map<string, seq<string>> := map["user-agent" := ["mock"], "referer" := ["https://google.com"]]

  /** The first "x-request-id" header value; empty when there is none. */
  function RequestId(ex: Exchange): string
  {
    var id := FirstHeader(ex.headers, "x-request-id");
    if id.Some? then id.value else ""
  }

  /** A log customizer that appends "x_request_id=" and the request id to the text buffer. */
  function AppendRequestId(b: string, ex: Exchange): string
  {
    b + ("x_request_id=" + RequestId(ex))
  }

  /** An event customizer that adds the request id under the key "x-request-id". */
  function AddRequestId(kvs: seq<KeyValue>, ex: Exchange): seq<KeyValue>
  {
    kvs + [("x-request-id", Str(RequestId(ex)))]
  }

  /** The log line of seven fields: their tokens separated by single spaces. */
  lemma Line7(f0: Field, f1: Field, f2: Field, f3: Field, f4: Field, f5: Field, f6: Field)
    ensures Line(Pairs([f0, f1, f2, f3, f4, f5, f6])) ==
      Token(Pair(f0)) + " " + Token(Pair(f1)) + " " + Token(Pair(f2)) + " " + Token(Pair(f3)) + " "
      + Token(Pair(f4)) + " " + Token(Pair(f5)) + " " + Token(Pair(f6))
  {
    assert Line(Pairs([f0])) == Token(Pair(f0));
    LineSnoc([f0], f1);
    assert [f0] + [f1] == [f0, f1];
    LineSnoc([f0, f1], f2);
    assert [f0, f1] + [f2] == [f0, f1, f2];
    LineSnoc([f0, f1, f2], f3);
    assert [f0, f1, f2] + [f3] == [f0, f1, f2, f3];
    LineSnoc([f0, f1, f2, f3], f4);
    assert [f0, f1, f2, f3] + [f4] == [f0, f1, f2, f3, f4];
    LineSnoc([f0, f1, f2, f3, f4], f5);
    assert [f0, f1, f2, f3, f4] + [f5] == [f0, f1, f2, f3, f4, f5];
    LineSnoc([f0, f1, f2, f3, f4, f5], f6);
    assert [f0, f1, f2, f3, f4, f5] + [f6] == [f0, f1, f2, f3, f4, f5, f6];
  }

  /** Integer.toString of the sample's status and duration. */
  lemma SampleNumbers()
    ensures Decimal(200) == "200" && Decimal(1000) == "1000"
  {
    assert Digits(200) == Digits(20) + "0";
    assert Digits(1000) == Digits(100) + "0";
  }

  /** The tokens of the sample's fields, spelled out. */
  lemma TokensSpelled(remote: string, ts: string, verb: string, uri: string, status: int, userAgent: string, duration: int)
    ensures Token(Pair(Field(Remote, Str(remote)))) == "remote=" + remote
    ensures Token(Pair(Field(Ts, Str(ts)))) == "ts=\"" + ts + "\""
    ensures Token(Pair(Field(Method, Str(verb)))) == "method=" + verb
    ensures Token(Pair(Field(Url, Str(uri)))) == "url=\"" + uri + "\""
    ensures Token(Pair(Field(ResponseCode, Num(status)))) == "response_code=" + Decimal(status)
    ensures Token(Pair(Field(UserAgent, Str(userAgent)))) == "user_agent=\"" + userAgent + "\""
    ensures Token(Pair(Field(Duration, Num(duration)))) == "duration=" + Decimal(duration)
  {
    TokenQuoting(Field(Remote, Str(remote)));
    TokenQuoting(Field(Ts, Str(ts)));
    TokenQuoting(Field(Method, Str(verb)));
    TokenQuoting(Field(Url, Str(uri)));
    TokenQuoting(Field(ResponseCode, Num(status)));
    TokenQuoting(Field(UserAgent, Str(userAgent)));
    TokenQuoting(Field(Duration, Num(duration)));
  }

  /** The fields of an exchange with a remote address, a user agent and a duration but no principal and no referer. */
  lemma SevenFields(ex: Exchange, remote: string, userAgent: string, duration: int)
    requires ex.remote == Some(remote) && ex.principal.None? && ex.durationMs == Some(duration)
    requires FirstHeader(ex.headers, "referer").None? && FirstHeader(ex.headers, "user-agent") == Some(userAgent)
    ensures Fields(ex) == [Field(Remote, Str(remote)), Field(Ts, Str(ex.ts)), Field(Method, Str(ex.requestMethod)),
      Field(Url, Str(ex.uri)), Field(ResponseCode, Num(ex.status)), Field(UserAgent, Str(userAgent)),
      Field(Duration, Num(duration))]
  {
    FieldsUnfold(ex);
  }

  /**
   * The log line of an exchange with a remote address, a user agent and a
   * duration but no principal and no referer, token by token.
   */
  lemma SevenFieldLine(ex: Exchange, remote: string, userAgent: string, duration: int)
    requires ex.remote == Some(remote) && ex.principal.None? && ex.durationMs == Some(duration)
    requires FirstHeader(ex.headers, "referer").None? && FirstHeader(ex.headers, "user-agent") == Some(userAgent)
    ensures Line(Pairs(Fields(ex))) ==
      ("remote=" + remote) + " " + ("ts=\"" + ex.ts + "\"") + " " + ("method=" + ex.requestMethod) + " "
      + ("url=\"" + ex.uri + "\"") + " " + ("response_code=" + Decimal(ex.status)) + " "
      + ("user_agent=\"" + userAgent + "\"") + " " + ("duration=" + Decimal(duration))
  {
    SevenFields(ex, remote, userAgent, duration);
    Line7(Field(Remote, Str(remote)), Field(Ts, Str(ex.ts)), Field(Method, Str(ex.requestMethod)),
      Field(Url, Str(ex.uri)), Field(ResponseCode, Num(ex.status)), Field(UserAgent, Str(userAgent)),
      Field(Duration, Num(duration)));
    TokensSpelled(remote, ex.ts, ex.requestMethod, ex.uri, ex.status, userAgent, duration);
  }

  /** The tokens of the principal and the referer, spelled out. */
  lemma OptionalTokensSpelled(user: string, referer: string)
    ensures Token(Pair(Field(User, Str(user)))) == "user=\"" + user + "\""
    ensures Token(Pair(Field(Referer, Str(referer)))) == "referer=\"" + referer + "\""
  {
    TokenQuoting(Field(User, Str(user)));
    TokenQuoting(Field(Referer, Str(referer)));
  }

  /** The log line of eight fields: their tokens separated by single spaces. */
  lemma Line8(f0: Field, f1: Field, f2: Field, f3: Field, f4: Field, f5: Field, f6: Field, f7: Field)
    ensures Line(Pairs([f0, f1, f2, f3, f4, f5, f6, f7])) ==
      Token(Pair(f0)) + " " + Token(Pair(f1)) + " " + Token(Pair(f2)) + " " + Token(Pair(f3)) + " "
      + Token(Pair(f4)) + " " + Token(Pair(f5)) + " " + Token(Pair(f6)) + " " + Token(Pair(f7))
  {
    Line7(f0, f1, f2, f3, f4, f5, f6);
    LineSnoc([f0, f1, f2, f3, f4, f5, f6], f7);
    assert [f0, f1, f2, f3, f4, f5, f6] + [f7] == [f0, f1, f2, f3, f4, f5, f6, f7];
  }

  /** The fields of an exchange like the one of `SevenFields` that also has a principal. */
  lemma PrincipalFields(ex: Exchange, remote: string, user: string, userAgent: string, duration: int)
    requires ex.remote == Some(remote) && ex.principal == Some(user) && ex.durationMs == Some(duration)
    requires FirstHeader(ex.headers, "referer").None? && FirstHeader(ex.headers, "user-agent") == Some(userAgent)
    ensures Fields(ex) == [Field(Remote, Str(remote)), Field(User, Str(user)), Field(Ts, Str(ex.ts)),
      Field(Method, Str(ex.requestMethod)), Field(Url, Str(ex.uri)), Field(ResponseCode, Num(ex.status)),
      Field(UserAgent, Str(userAgent)), Field(Duration, Num(duration))]
  {
    FieldsUnfold(ex);
  }

  /** The fields of an exchange like the one of `SevenFields` that also has a referer. */
  lemma RefererFields(ex: Exchange, remote: string, referer: string, userAgent: string, duration: int)
    requires ex.remote == Some(remote) && ex.principal.None? && ex.durationMs == Some(duration)
    requires FirstHeader(ex.headers, "referer") == Some(referer) && FirstHeader(ex.headers, "user-agent") == Some(userAgent)
    ensures Fields(ex) == [Field(Remote, Str(remote)), Field(Ts, Str(ex.ts)), Field(Method, Str(ex.requestMethod)),
      Field(Url, Str(ex.uri)), Field(ResponseCode, Num(ex.status)), Field(Referer, Str(referer)),
      Field(UserAgent, Str(userAgent)), Field(Duration, Num(duration))]
  {
    FieldsUnfold(ex);
  }

  /** The log line with a principal: its token comes right after the remote address. */
  lemma PrincipalLine(ex: Exchange, remote: string, user: string, userAgent: string, duration: int)
    requires ex.remote == Some(remote) && ex.principal == Some(user) && ex.durationMs == Some(duration)
    requires FirstHeader(ex.headers, "referer").None? && FirstHeader(ex.headers, "user-agent") == Some(userAgent)
    ensures Line(Pairs(Fields(ex))) ==
      ("remote=" + remote) + " " + ("user=\"" + user + "\"") + " " + ("ts=\"" + ex.ts + "\"") + " "
      + ("method=" + ex.requestMethod) + " " + ("url=\"" + ex.uri + "\"") + " "
      + ("response_code=" + Decimal(ex.status)) + " " + ("user_agent=\"" + userAgent + "\"") + " "
      + ("duration=" + Decimal(duration))
  {
    PrincipalFields(ex, remote, user, userAgent, duration);
    Line8(Field(Remote, Str(remote)), Field(User, Str(user)), Field(Ts, Str(ex.ts)),
      Field(Method, Str(ex.requestMethod)), Field(Url, Str(ex.uri)), Field(ResponseCode, Num(ex.status)),
      Field(UserAgent, Str(userAgent)), Field(Duration, Num(duration)));
    TokensSpelled(remote, ex.ts, ex.requestMethod, ex.uri, ex.status, userAgent, duration);
    OptionalTokensSpelled(user, "");
  }

  /** The log line with a referer: its token comes between the status code and the user agent. */
  lemma RefererLine(ex: Exchange, remote: string, referer: string, userAgent: string, duration: int)
    requires ex.remote == Some(remote) && ex.principal.None? && ex.durationMs == Some(duration)
    requires FirstHeader(ex.headers, "referer") == Some(referer) && FirstHeader(ex.headers, "user-agent") == Some(userAgent)
    ensures Line(Pairs(Fields(ex))) ==
      ("remote=" + remote) + " " + ("ts=\"" + ex.ts + "\"") + " " + ("method=" + ex.requestMethod) + " "
      + ("url=\"" + ex.uri + "\"") + " " + ("response_code=" + Decimal(ex.status)) + " "
      + ("referer=\"" + referer + "\"") + " " + ("user_agent=\"" + userAgent + "\"") + " "
      + ("duration=" + Decimal(duration))
  {
    RefererFields(ex, remote, referer, userAgent, duration);
    Line8(Field(Remote, Str(remote)), Field(Ts, Str(ex.ts)), Field(Method, Str(ex.requestMethod)),
      Field(Url, Str(ex.uri)), Field(ResponseCode, Num(ex.status)), Field(Referer, Str(referer)),
      Field(UserAgent, Str(userAgent)), Field(Duration, Num(duration)));
    TokensSpelled(remote, ex.ts, ex.requestMethod, ex.uri, ex.status, userAgent, duration);
    OptionalTokensSpelled("", referer);
  }
  /** The entry text expected for the sample without principal or referer. */
  const SampleText: string :=
    ("remote=" + "127.0.0.1") + " " + ("ts=\"" + "2024-05-16T00:00:00Z" + "\"") + " " + ("method=" + "GET") + " "
    + ("url=\"" + "https://example.com" + "\"") + " " + ("response_code=" + "200") + " "
    + ("user_agent=\"" + "mock" + "\"") + " " + ("duration=" + "1000")

  /** The key/values expected for the sample without principal or referer. */
  const SampleKeyValues: seq<KeyValue> :=
    [("remote", Str("127.0.0.1")), ("ts", Str("2024-05-16T00:00:00Z")), ("method", Str("GET")),
     ("url", Str("https://example.com")), ("response_code", Num(200)), ("user_agent", Str("mock")),
     ("duration", Num(1000))]

  /** The log line of the sample without principal or referer. */
  lemma SampleLine(headers: map<string, seq<string>>)
    requires headers == Plain || headers == WithRequestId
    ensures Line(Pairs(Fields(Sample(None, headers)))) == SampleText
  {
    SevenFieldLine(Sample(None, headers), "127.0.0.1", "mock", 1000);
    SampleNumbers();
  }

  /** The key/values of the sample without principal or referer. */
  lemma SamplePairs(headers: map<string, seq<string>>)
    requires headers == Plain || headers == WithRequestId
    ensures Pairs(Fields(Sample(None, headers))) == SampleKeyValues
  {
    SevenFields(Sample(None, headers), "127.0.0.1", "mock", 1000);
  }

  /** The key/values expected for the sample with a referer header. */
  const RefererKeyValues: seq<KeyValue> :=
    [("remote", Str("127.0.0.1")), ("ts", Str("2024-05-16T00:00:00Z")), ("method", Str("GET")),
     ("url", Str("https://example.com")), ("response_code", Num(200)), ("referer", Str("https://google.com")),
     ("user_agent", Str("mock")), ("duration", Num(1000))]

  /** The key/values expected for the sample with a principal. */
  const PrincipalKeyValues: seq<KeyValue> :=
    [("remote", Str("127.0.0.1")), ("user", Str("admin")), ("ts", Str("2024-05-16T00:00:00Z")), ("method", Str("GET")),
     ("url", Str("https://example.com")), ("response_code", Num(200)), ("user_agent", Str("mock")),
     ("duration", Num(1000))]

  /** The entry text expected for the sample with a referer header. */
  const RefererText: string :=
    ("remote=" + "127.0.0.1") + " " + ("ts=\"" + "2024-05-16T00:00:00Z" + "\"") + " " + ("method=" + "GET") + " "
      + ("url=\"" + "https://example.com" + "\"") + " " + ("response_code=" + "200") + " "
      + ("referer=\"" + "https://google.com" + "\"") + " " + ("user_agent=\"" + "mock" + "\"") + " "
      + ("duration=" + "1000")

  /** The entry text expected for the sample with a principal. */
  const PrincipalText: string :=
    ("remote=" + "127.0.0.1") + " " + ("user=\"" + "admin" + "\"") + " " + ("ts=\"" + "2024-05-16T00:00:00Z" + "\"") + " "
      + ("method=" + "GET") + " " + ("url=\"" + "https://example.com" + "\"") + " "
      + ("response_code=" + "200") + " " + ("user_agent=\"" + "mock" + "\"") + " " + ("duration=" + "1000")

  /** The log line of the sample with a referer header. */
  lemma RefererSampleLine(ex: Exchange)
    requires ex == Sample(None, WithReferer)
    ensures Line(Pairs(Fields(ex))) == RefererText
  {
    RefererLine(ex, "127.0.0.1", "https://google.com", "mock", 1000);
    SampleNumbers();
  }

  /** The key/values of the sample with a referer header. */
  lemma RefererSamplePairs(ex: Exchange)
    requires ex == Sample(None, WithReferer)
    ensures Pairs(Fields(ex)) == RefererKeyValues
  {
    RefererFields(ex, "127.0.0.1", "https://google.com", "mock", 1000);
  }

  /** The log line of the sample with a principal. */
  lemma PrincipalSampleLine(ex: Exchange)
    requires ex == Sample(Some("admin"), Plain)
    ensures Line(Pairs(Fields(ex))) == PrincipalText
  {
    PrincipalLine(ex, "127.0.0.1", "admin", "mock", 1000);
    SampleNumbers();
  }

  /** The key/values of the sample with a principal. */
  lemma PrincipalSamplePairs(ex: Exchange)
    requires ex == Sample(Some("admin"), Plain)
    ensures Pairs(Fields(ex)) == PrincipalKeyValues
  {
    PrincipalFields(ex, "127.0.0.1", "admin", "mock", 1000);
  }

  /** The default logger: named "accesslog", at INFO, the sample's line as message, no key/values. */
  lemma DefaultEntry(cfg: Config, ex: Exchange)
    requires Configure(None, None, None, None, false, false, None) == Success(cfg)
    requires ex == Sample(None, Plain)
    ensures Emit(cfg, AllEnabled, ex) == Some(Emission("accesslog", INFO, SampleText, []))
  {
    PlainMessage(cfg, AllEnabled, ex);
    SampleLine(Plain);
  }

  /** The level DEBUG: the entry is emitted at DEBUG when the backend enables that level. */
  lemma DebugEntry(cfg: Config, ex: Exchange)
    requires Configure(None, None, None, Some(DEBUG), false, false, None) == Success(cfg)
    requires ex == Sample(None, Plain)
    ensures Emit(cfg, AllEnabled, ex) == Some(Emission("accesslog", DEBUG, SampleText, []))
  {
    PlainMessage(cfg, AllEnabled, ex);
    SampleLine(Plain);
  }

  /** The level DEBUG: nothing is emitted when the backend enables only INFO and above. */
  lemma DebugDisabled(cfg: Config, ex: Exchange, enabled: Level -> bool)
    requires Configure(None, None, None, Some(DEBUG), false, false, None) == Success(cfg)
    requires forall l :: enabled(l) <==> l != TRACE && l != DEBUG
    ensures Emit(cfg, enabled, ex) == None
  {
  }

  /** Another logger name: the entry carries it. */
  lemma LoggerNameEntry(cfg: Config, ex: Exchange)
    requires Configure(None, None, Some("ACCESS_LOG"), None, false, false, None) == Success(cfg)
    requires ex == Sample(None, Plain)
    ensures Emit(cfg, AllEnabled, ex) == Some(Emission("ACCESS_LOG", INFO, SampleText, []))
  {
    PlainMessage(cfg, AllEnabled, ex);
    SampleLine(Plain);
  }

  /** Key/values attached: the same message, and one pair per field with its raw value. */
  lemma KeyValuesEntry(cfg: Config, ex: Exchange)
    requires Configure(None, None, None, None, true, false, None) == Success(cfg)
    requires ex == Sample(None, Plain)
    ensures Emit(cfg, AllEnabled, ex) == Some(Emission("accesslog", INFO, SampleText, SampleKeyValues))
  {
    PlainMessage(cfg, AllEnabled, ex);
    KeyValuesMirrorFields(cfg, AllEnabled, ex);
    SampleLine(Plain);
    SamplePairs(Plain);
  }

  /** A referer header: its token and pair come between the status code and the user agent. */
  lemma RefererEntry(cfg: Config, ex: Exchange)
    requires Configure(None, None, None, None, true, false, None) == Success(cfg)
    requires ex == Sample(None, WithReferer)
    ensures Emit(cfg, AllEnabled, ex) == Some(Emission("accesslog", INFO,
      RefererText,
      RefererKeyValues))
  {
    PlainMessage(cfg, AllEnabled, ex);
    KeyValuesMirrorFields(cfg, AllEnabled, ex);
    RefererSampleLine(ex);
    RefererSamplePairs(ex);
  }

  /** A principal: the user's token and pair come right after the remote address. */
  lemma PrincipalEntry(cfg: Config, ex: Exchange)
    requires Configure(None, None, None, None, true, false, None) == Success(cfg)
    requires ex == Sample(Some("admin"), Plain)
    ensures Emit(cfg, AllEnabled, ex) == Some(Emission("accesslog", INFO,
      PrincipalText,
      PrincipalKeyValues))
  {
    PlainMessage(cfg, AllEnabled, ex);
    KeyValuesMirrorFields(cfg, AllEnabled, ex);
    PrincipalSampleLine(ex);
    PrincipalSamplePairs(ex);
  }

  /** The message suppressed: an empty message and the key/values alone. */
  lemma SuppressedEntry(cfg: Config, ex: Exchange)
    requires Configure(None, None, None, None, true, true, None) == Success(cfg)
    requires ex == Sample(None, Plain)
    ensures Emit(cfg, AllEnabled, ex) == Some(Emission("accesslog", INFO, "", SampleKeyValues))
  {
    SuppressedMessage(cfg, AllEnabled, ex);
    KeyValuesMirrorFields(cfg, AllEnabled, ex);
    SamplePairs(Plain);
  }

  /** Suppressing the message without key/values is refused with the constructor's message. */
  lemma RefusedEntry()
    ensures Configure(None, None, None, None, false, true, None)
      == Failure("'emptyLogMessage' can be true only when 'addKeyValues' is true.")
  {
  }

  /** A log customizer appending the request id: it follows the line after one space. */
  lemma CustomizedEntry(cfg: Config, ex: Exchange)
    requires Configure(None, Some(AppendRequestId), None, None, false, false, None) == Success(cfg)
    requires ex == Sample(None, WithRequestId)
    ensures Emit(cfg, AllEnabled, ex) == Some(Emission("accesslog", INFO, SampleText + (" " + ("x_request_id=" + "xyz")), []))
  {
    var extra := "x_request_id=" + "xyz";
    assert RequestId(ex) == "xyz";
    CustomizedMessage(cfg, AllEnabled, ex, extra);
    SampleLine(WithRequestId);
    TrimEndKeeps(" " + extra);
  }

  /** An event customizer adding the request id: one more pair after the fields' pairs. */
  lemma EventCustomizedEntry(cfg: Config, ex: Exchange)
    requires Configure(None, None, None, None, true, true, Some(AddRequestId)) == Success(cfg)
    requires ex == Sample(None, WithRequestId)
    ensures Emit(cfg, AllEnabled, ex)
      == Some(Emission("accesslog", INFO, "", SampleKeyValues + [("x-request-id", Str("xyz"))]))
  {
    assert RequestId(ex) == "xyz";
    SuppressedMessage(cfg, AllEnabled, ex);
    SamplePairs(WithRequestId);
  }
}
