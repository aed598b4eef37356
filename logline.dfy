/**
 * The fields an access-log line is made of: which fields an exchange
 * carries, in which order, how each becomes a `key=value` token, and the
 * text buffer and key/value list built from them.
 */
module LogLine {
  import opened Wrappers
  import opened Exchanges
  import opened Strings

  /** The nine fields, declared in the order they are logged. */
  datatype Kind = Remote | User | Ts | Method | Url | ResponseCode | Referer | UserAgent | Duration

  /** The key a field is logged under. */
  function Name(k: Kind): string
  {
    match k
    case Remote => "remote"
    case User => "user"
    case Ts => "ts"
    case Method => "method"
    case Url => "url"
    case ResponseCode => "response_code"
    case Referer => "referer"
    case UserAgent => "user_agent"
    case Duration => "duration"
  }

  /** Position of a field in the log line. */
  function Rank(k: Kind): nat
  {
    match k
    case Remote => 0
    case User => 1
    case Ts => 2
    case Method => 3
    case Url => 4
    case ResponseCode => 5
    case Referer => 6
    case UserAgent => 7
    case Duration => 8
  }

  const Order: seq<Kind> := [Remote, User, Ts, Method, Url, ResponseCode, Referer, UserAgent, Duration]

  /** The keys whose text value is written between double quotes. */
  const QuotedKeys: set<string> := {"user", "ts", "url", "referer", "user_agent"}

  /** The raw value of one field of an exchange, or None when the exchange does not carry it. */
  function Extract(ex: Exchange, k: Kind): Option<Value>
  {
    match k
    case Remote => if ex.remote.Some? then Some(Str(ex.remote.value)) else None
    case User => if ex.principal.Some? then Some(Str(ex.principal.value)) else None
    case Ts => Some(Str(ex.ts))
    case Method => Some(Str(ex.requestMethod))
    case Url => Some(Str(ex.uri))
    case ResponseCode => Some(Num(ex.status))
    case Referer =>
      var h := FirstHeader(ex.headers, "referer");
      if h.Some? then Some(Str(h.value)) else None
    case UserAgent =>
      var h := FirstHeader(ex.headers, "user-agent");
      if h.Some? then Some(Str(h.value)) else None
    case Duration => if ex.durationMs.Some? then Some(Num(ex.durationMs.value)) else None
  }

  datatype Field = Field(kind: Kind, value: Value)

  /** The field of kind `k`, as a one-element list, when the exchange carries it. */
  function Pick(ex: Exchange, k: Kind): seq<Field>
  {
    match Extract(ex, k)
    case Some(v) => [Field(k, v)]
    case None => []
  }

  /** The fields the exchange carries among `ks`, in the order of `ks`. */
  function FieldsOf(ex: Exchange, ks: seq<Kind>): seq<Field>
  {
    if ks == [] then [] else FieldsOf(ex, ks[..|ks| - 1]) + Pick(ex, ks[|ks| - 1])
  }

  /** The fields of an exchange that appear in its log entry. */
  function Fields(ex: Exchange): seq<Field>
  {
    FieldsOf(ex, Order)
  }

  function Kinds(fs: seq<Field>): seq<Kind>
  {
    seq(|fs|, i requires 0 <= i < |fs| => fs[i].kind)
  }

  predicate Increasing(ks: seq<Kind>)
  {
    forall i, j :: 0 <= i < j < |ks| ==> Rank(ks[i]) < Rank(ks[j])
  }

  /** What a value looks like in the text line: the text itself, or the number in decimal. */
  function Show(v: Value): string
  {
    match v
    case Str(s) => s
    case Num(n) => Decimal(n)
  }

  /** The `key=value` token of one pair; quoted keys get `key="value"`. */
  function Token(kv: KeyValue): string
  {
    kv.0 + "=" + (if kv.0 in QuotedKeys then "\"" + Show(kv.1) + "\"" else Show(kv.1))
  }

  function Pair(f: Field): KeyValue
  {
    (Name(f.kind), f.value)
  }

  /** The key/value pairs attached for a list of fields, one per field. */
  function Pairs(fs: seq<Field>): (r: seq<KeyValue>)
    ensures |r| == |fs|
    ensures forall i :: 0 <= i < |fs| ==> r[i] == Pair(fs[i])
  {
    if fs == [] then [] else Pairs(fs[..|fs| - 1]) + [Pair(fs[|fs| - 1])]
  }

  function Tokens(kvs: seq<KeyValue>): seq<string>
  {
    seq(|kvs|, i requires 0 <= i < |kvs| => Token(kvs[i]))
  }

  /** The log line a list of key/value pairs reads as: their tokens joined by single spaces. */
  function Line(kvs: seq<KeyValue>): string
  {
    SpaceJoin(Tokens(kvs))
  }

  /** The text buffer after the fields are appended: every token followed by one space. */
  function Buffer(fs: seq<Field>): string
  {
    if fs == [] then "" else Buffer(fs[..|fs| - 1]) + Token(Pair(fs[|fs| - 1])) + " "
  }

  lemma KindsAppend(a: seq<Field>, b: seq<Field>)
    ensures Kinds(a + b) == Kinds(a) + Kinds(b)
  {
  }

  lemma FieldsOfSnoc(ex: Exchange, ks: seq<Kind>, i: nat)
    requires i < |ks|
    ensures FieldsOf(ex, ks[..i + 1]) == FieldsOf(ex, ks[..i]) + Pick(ex, ks[i])
  {
    assert ks[..i + 1][..i] == ks[..i];
  }

  /** A kind appears among `FieldsOf(ex, ks)` exactly when it is one of `ks` and the exchange carries it. */
  lemma {:induction false} FieldsOfKinds(ex: Exchange, ks: seq<Kind>)
    ensures forall k :: k in Kinds(FieldsOf(ex, ks)) <==> k in ks && Extract(ex, k).Some?
  {
    if ks != [] {
      var init, last := ks[..|ks| - 1], ks[|ks| - 1];
      FieldsOfKinds(ex, init);
      KindsAppend(FieldsOf(ex, init), Pick(ex, last));
      assert ks == init + [last];
      assert Kinds(Pick(ex, last)) == if Extract(ex, last).Some? then [last] else [];
    }
  }

  /** Every field of `FieldsOf(ex, ks)` carries the raw value the exchange has for its kind. */
  lemma {:induction false} FieldsOfValues(ex: Exchange, ks: seq<Kind>)
    ensures forall f :: f in FieldsOf(ex, ks) ==> Extract(ex, f.kind) == Some(f.value)
  {
    if ks != [] {
      FieldsOfValues(ex, ks[..|ks| - 1]);
    }
  }

  /** Selecting fields keeps the order of the kinds selected from. */
  lemma {:induction false} FieldsOfIncreasing(ex: Exchange, ks: seq<Kind>)
    requires Increasing(ks)
    ensures Increasing(Kinds(FieldsOf(ex, ks)))
  {
    if ks != [] {
      var init, last := ks[..|ks| - 1], ks[|ks| - 1];
      var t, p := Kinds(FieldsOf(ex, init)), Kinds(Pick(ex, last));
      assert Increasing(init);
      FieldsOfIncreasing(ex, init);
      FieldsOfKinds(ex, init);
      KindsAppend(FieldsOf(ex, init), Pick(ex, last));
      assert p == [] || p == [last];
      forall i, j | 0 <= i < j < |t + p|
        ensures Rank((t + p)[i]) < Rank((t + p)[j])
      {
        if j >= |t| {
          assert (t + p)[i] == t[i] && t[i] in t;
          var m :| 0 <= m < |init| && init[m] == t[i];
        }
      }
    }
  }

  /**
   * The fields of an exchange are exactly those it carries, each with its
   * raw value, in the order remote, user, ts, method, url, response_code,
   * referer, user_agent, duration, with no field twice.
   */
  lemma FieldsCharacterized(ex: Exchange)
    ensures forall k :: k in Kinds(Fields(ex)) <==> Extract(ex, k).Some?
    ensures forall f :: f in Fields(ex) ==> Extract(ex, f.kind) == Some(f.value)
    ensures Increasing(Kinds(Fields(ex)))
  {
    FieldsOfKinds(ex, Order);
    FieldsOfValues(ex, Order);
    FieldsOfIncreasing(ex, Order);
    OrderComplete();
  }

  /** Every kind of field has its place in the order. */
  lemma OrderComplete()
    ensures forall k :: k in Order
  {
    forall k ensures k in Order {
      assert Order[Rank(k)] == k;
    }
  }

  /**
   * The token of each field as the log line spells it: user, ts, url,
   * referer and user_agent values are quoted, remote, method,
   * response_code and duration values are not.
   */
  lemma TokenQuoting(f: Field)
    ensures Token(Pair(f)) ==
      match f.kind
      case Remote => "remote=" + Show(f.value)
      case User => "user=\"" + Show(f.value) + "\""
      case Ts => "ts=\"" + Show(f.value) + "\""
      case Method => "method=" + Show(f.value)
      case Url => "url=\"" + Show(f.value) + "\""
      case ResponseCode => "response_code=" + Show(f.value)
      case Referer => "referer=\"" + Show(f.value) + "\""
      case UserAgent => "user_agent=\"" + Show(f.value) + "\""
      case Duration => "duration=" + Show(f.value)
  {
  }

  /**
   * Appending one field adds its token and a space to the buffer, spelled
   * as the log line spells it, and its pair to the key/values.
   */
  lemma Append(fs: seq<Field>, f: Field)
    ensures Buffer(fs + [f]) ==
      match f.kind
      case Remote => Buffer(fs) + "remote=" + Show(f.value) + " "
      case User => Buffer(fs) + "user=\"" + Show(f.value) + "\" "
      case Ts => Buffer(fs) + "ts=\"" + Show(f.value) + "\" "
      case Method => Buffer(fs) + "method=" + Show(f.value) + " "
      case Url => Buffer(fs) + "url=\"" + Show(f.value) + "\" "
      case ResponseCode => Buffer(fs) + "response_code=" + Show(f.value) + " "
      case Referer => Buffer(fs) + "referer=\"" + Show(f.value) + "\" "
      case UserAgent => Buffer(fs) + "user_agent=\"" + Show(f.value) + "\" "
      case Duration => Buffer(fs) + "duration=" + Show(f.value) + " "
    ensures Pairs(fs + [f]) == Pairs(fs) + [Pair(f)]
  {
    assert (fs + [f])[..|fs|] == fs;
    TokenQuoting(f);
    var b, v := Buffer(fs), Show(f.value);
    match f.kind
    case Remote => Unquoted(b, "remote=", v);
    case User => Quoted(b, "user=\"", v);
    case Ts => Quoted(b, "ts=\"", v);
    case Method => Unquoted(b, "method=", v);
    case Url => Quoted(b, "url=\"", v);
    case ResponseCode => Unquoted(b, "response_code=", v);
    case Referer => Quoted(b, "referer=\"", v);
    case UserAgent => Quoted(b, "user_agent=\"", v);
    case Duration => Unquoted(b, "duration=", v);
  }

  /** Appending the four fields every exchange carries: ts, method, url and response_code. */
  lemma AppendRequired(fs: seq<Field>, ex: Exchange)
    ensures Buffer(fs + Pick(ex, Ts) + Pick(ex, Method) + Pick(ex, Url) + Pick(ex, ResponseCode)) ==
      Buffer(fs) + "ts=\"" + ex.ts + "\" " + "method=" + ex.requestMethod + " "
      + "url=\"" + ex.uri + "\" " + "response_code=" + Decimal(ex.status) + " "
    ensures Pairs(fs + Pick(ex, Ts) + Pick(ex, Method) + Pick(ex, Url) + Pick(ex, ResponseCode)) ==
      Pairs(fs) + [("ts", Str(ex.ts))] + [("method", Str(ex.requestMethod))]
      + [("url", Str(ex.uri))] + [("response_code", Num(ex.status))]
  {
    var ts, verb := Field(Ts, Str(ex.ts)), Field(Method, Str(ex.requestMethod));
    var url, code := Field(Url, Str(ex.uri)), Field(ResponseCode, Num(ex.status));
    Append(fs, ts);
    Append(fs + [ts], verb);
    Append(fs + [ts] + [verb], url);
    Append(fs + [ts] + [verb] + [url], code);
  }

  /** Proof helper for `Append`: regroups the concatenation of an unquoted token and its space. */
  lemma Unquoted(b: string, key: string, v: string)
    ensures b + (key + v) + " " == b + key + v + " "
  {
  }

  /** Proof helper for `Append`: regroups the concatenation of a quoted token and its space. */
  lemma Quoted(b: string, key: string, v: string)
    ensures b + (key + v + "\"") + " " == b + key + v + "\" "
  {
    assert "\"" + " " == "\" ";
  }

  /** The first five fields of an exchange spelled out kind by kind. */
  lemma FieldsHead(ex: Exchange)
    ensures FieldsOf(ex, Order[..5]) ==
      Pick(ex, Remote) + Pick(ex, User) + Pick(ex, Ts) + Pick(ex, Method) + Pick(ex, Url)
  {
    var p0, p1, p2 := Pick(ex, Remote), Pick(ex, User), Pick(ex, Ts);
    var p3, p4 := Pick(ex, Method), Pick(ex, Url);
    calc {
      FieldsOf(ex, Order[..5]);
      { FieldsOfSnoc(ex, Order, 4); assert Order[4] == Url; }
      FieldsOf(ex, Order[..4]) + p4;
      { FieldsOfSnoc(ex, Order, 3); assert Order[3] == Method; }
      FieldsOf(ex, Order[..3]) + p3 + p4;
      { FieldsOfSnoc(ex, Order, 2); assert Order[2] == Ts; }
      FieldsOf(ex, Order[..2]) + p2 + p3 + p4;
      { FieldsOfSnoc(ex, Order, 1); assert Order[1] == User; }
      FieldsOf(ex, Order[..1]) + p1 + p2 + p3 + p4;
      { FieldsOfSnoc(ex, Order, 0); assert Order[0] == Remote; assert Order[..0] == []; }
      p0 + p1 + p2 + p3 + p4;
    }
  }

  /** The fields of an exchange spelled out kind by kind. */
  lemma FieldsUnfold(ex: Exchange)
    ensures Fields(ex) ==
      Pick(ex, Remote) + Pick(ex, User) + Pick(ex, Ts) + Pick(ex, Method) + Pick(ex, Url)
      + Pick(ex, ResponseCode) + Pick(ex, Referer) + Pick(ex, UserAgent) + Pick(ex, Duration)
  {
    var p5, p6 := Pick(ex, ResponseCode), Pick(ex, Referer);
    var p7, p8 := Pick(ex, UserAgent), Pick(ex, Duration);
    calc {
      Fields(ex);
      { assert Order[..9] == Order; }
      FieldsOf(ex, Order[..9]);
      { FieldsOfSnoc(ex, Order, 8); assert Order[8] == Duration; }
      FieldsOf(ex, Order[..8]) + p8;
      { FieldsOfSnoc(ex, Order, 7); assert Order[7] == UserAgent; }
      FieldsOf(ex, Order[..7]) + p7 + p8;
      { FieldsOfSnoc(ex, Order, 6); assert Order[6] == Referer; }
      FieldsOf(ex, Order[..6]) + p6 + p7 + p8;
      { FieldsOfSnoc(ex, Order, 5); assert Order[5] == ResponseCode; }
      FieldsOf(ex, Order[..5]) + p5 + p6 + p7 + p8;
      { FieldsHead(ex); }
      Pick(ex, Remote) + Pick(ex, User) + Pick(ex, Ts) + Pick(ex, Method) + Pick(ex, Url) + p5 + p6 + p7 + p8;
    }
  }

  /** The key/values of an exchange: one pair per carried field, under the field's key, with its raw value. */
  lemma PairsOfFields(ex: Exchange)
    ensures forall k, v :: Extract(ex, k) == Some(v) ==> (Name(k), v) in Pairs(Fields(ex))
    ensures forall kv :: kv in Pairs(Fields(ex)) ==> exists k :: kv.0 == Name(k) && Extract(ex, k) == Some(kv.1)
  {
    var fs := Fields(ex);
    var kvs := Pairs(fs);
    FieldsCharacterized(ex);
    forall k, v | Extract(ex, k) == Some(v)
      ensures (Name(k), v) in kvs
    {
      assert k in Kinds(fs);
      var i :| 0 <= i < |fs| && fs[i].kind == k;
      assert fs[i] in fs;
      assert kvs[i] == Pair(fs[i]);
    }
    forall kv | kv in kvs
      ensures exists k :: kv.0 == Name(k) && Extract(ex, k) == Some(kv.1)
    {
      var i :| 0 <= i < |kvs| && kvs[i] == kv;
      assert fs[i] in fs;
      assert kv.0 == Name(fs[i].kind) && Extract(ex, fs[i].kind) == Some(kv.1);
    }
  }

  lemma NameStart(k: Kind)
    ensures Name(k) != [] && !IsSpace(Name(k)[0])
  {
  }

  /** A field whose token ends in a closing quote or a digit, never in whitespace. */
  predicate ClosedField(f: Field)
  {
    Name(f.kind) in QuotedKeys || f.value.Num?
  }

  lemma ClosedFieldToken(f: Field)
    requires ClosedField(f)
    ensures Token(Pair(f)) != [] && !IsSpace(Token(Pair(f))[|Token(Pair(f))| - 1])
  {
  }

  /**
   * An exchange has at least four fields (ts, method, url and response_code),
   * and its last field is closed: the unquoted remote and method values are
   * always followed by response_code.
   */
  lemma FieldsEnds(ex: Exchange)
    ensures |Fields(ex)| >= 4
    ensures ClosedField(Fields(ex)[|Fields(ex)| - 1])
  {
    var o := Order;
    forall i | 0 <= i < 9
      ensures FieldsOf(ex, o[..i + 1]) == FieldsOf(ex, o[..i]) + Pick(ex, o[i])
    {
      FieldsOfSnoc(ex, o, i);
    }
    assert o[..9] == o;
    assert |FieldsOf(ex, o[..6])| >= 4 by {
      assert |Pick(ex, o[2])| == |Pick(ex, o[3])| == |Pick(ex, o[4])| == |Pick(ex, o[5])| == 1;
    }
    assert ClosedField(FieldsOf(ex, o[..6])[|FieldsOf(ex, o[..6])| - 1]);
  }

  /** The buffer is the log line followed by one space. */
  lemma {:induction false} BufferIsLine(fs: seq<Field>)
    requires fs != []
    ensures Buffer(fs) == Line(Pairs(fs)) + " "
  {
    var init, f := fs[..|fs| - 1], fs[|fs| - 1];
    assert fs == init + [f];
    if init == [] {
      assert Tokens(Pairs(fs)) == [Token(Pair(f))];
    } else {
      BufferIsLine(init);
      LineSnoc(init, f);
    }
  }

  /** Appending a field to a non-empty list adds one space and the field's token to the log line. */
  lemma LineSnoc(fs: seq<Field>, f: Field)
    requires fs != []
    ensures Line(Pairs(fs + [f])) == Line(Pairs(fs)) + " " + Token(Pair(f))
  {
    assert Tokens(Pairs(fs + [f])) == Tokens(Pairs(fs)) + [Token(Pair(f))];
    SpaceJoinSnoc(Tokens(Pairs(fs)), Token(Pair(f)));
  }

  /** The line of fields ending in a closed field starts and ends with non-whitespace. */
  lemma LineEnds(fs: seq<Field>)
    requires fs != [] && ClosedField(fs[|fs| - 1])
    ensures Line(Pairs(fs)) != []
    ensures !IsSpace(Line(Pairs(fs))[0]) && !IsSpace(Line(Pairs(fs))[|Line(Pairs(fs))| - 1])
  {
    var toks := Tokens(Pairs(fs));
    ClosedFieldToken(fs[|fs| - 1]);
    NameStart(fs[0].kind);
    assert toks[|toks| - 1] == Token(Pair(fs[|fs| - 1]));
    assert toks[0] == Token(Pair(fs[0]));
    assert toks[0][0] == Name(fs[0].kind)[0];
  }

  /**
   * Trimming the buffer of fields that end in a closed field, followed by
   * whatever text was appended to it, gives the log line followed by the
   * appended text without its trailing whitespace.
   */
  lemma TrimmedBuffer(fs: seq<Field>, extra: string)
    requires fs != [] && ClosedField(fs[|fs| - 1])
    ensures Trim(Buffer(fs) + extra) == Line(Pairs(fs)) + TrimEnd(" " + extra)
  {
    var line := Line(Pairs(fs));
    BufferIsLine(fs);
    LineEnds(fs);
    assert Buffer(fs) + extra == line + (" " + extra);
    TrimStartKeeps(line + (" " + extra));
    TrimEndAppend(line, " " + extra);
  }

  /** With nothing appended, the trimmed buffer is exactly the log line. */
  lemma TrimmedBufferIsLine(fs: seq<Field>)
    requires fs != [] && ClosedField(fs[|fs| - 1])
    ensures Trim(Buffer(fs)) == Line(Pairs(fs))
  {
    TrimmedBuffer(fs, "");
    assert Buffer(fs) + "" == Buffer(fs);
    assert TrimEnd(" ") == "";
  }
}
