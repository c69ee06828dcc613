/**
 * The request bodies of mpulseapihandler.py and the answer of
 * `getSecurityToken`. Both bodies are built by plain string concatenation:
 * the arguments are pasted between fixed literals with no JSON escaping.
 * Decoders that read the fields back show what that concatenation keeps
 * when no argument contains a double quote, and what a quote breaks.
 */
module MPulseApi {
  import opened Wrappers
  import opened Json
  import opened Http

  // ----- Literals of the two payloads -----

  const TitleOpen := "{\"title\":\""
  const StartSep := "\", \"start\": \""
  const EndSep := "\", \"end\":\""
  const TextSep := "\", \"text\":\""
  const TokenOpen := "{\"apiToken\": \""
  const TenantSep := "\", \"tenant\": \""
  const Close := "\"}"

  /** The fields of an annotation; `end` is None when `addAnnotation` gets no end time. */
  datatype Annotation = Annotation(title: string, text: string, start: string, end: Option<string>)

  /**
   * The `payload` of `addAnnotation(token, title, text, start, end)`, with
   * `start` and `end` already the strings `str()` gives.
   */
  function AnnotationPayload(title: string, text: string, start: string, end: Option<string>): (r: string)
    ensures end.None? ==> |r| == |TitleOpen| + |title| + |StartSep| + |start| + |TextSep| + |text| + |Close|
    ensures end.Some? ==> |r| == |TitleOpen| + |title| + |StartSep| + |start| + |EndSep| + |end.value| + |TextSep| + |text| + |Close|
  {
    if end.None? then
      TitleOpen + title + StartSep + start + TextSep + text + Close
    else
      TitleOpen + title + StartSep + start + EndSep + end.value + TextSep + text + Close
  }

  /** The `payload` of `getSecurityToken(apiToken, tenant)`. */
  function TokenPayload(apiToken: string, tenant: string): (r: string)
    ensures |r| == |TokenOpen| + |apiToken| + |TenantSep| + |tenant| + |Close|
  {
    TokenOpen + apiToken + TenantSep + tenant + Close
  }

  // ----- Reading the fields back -----

  /** `s` without the literal `lit` in front, if it starts with it. */
  function Consume(s: string, lit: string): (r: Option<string>)
    ensures r.Some? <==> lit <= s
    ensures r.Some? ==> s == lit + r.value
  {
    if lit <= s then Some(s[|lit|..]) else None
  }

  /** The text up to the first double quote, and what follows from that quote on. */
  function Field(s: string): (r: (string, string))
    ensures r.0 + r.1 == s
    ensures '"' !in r.0
    ensures r.1 == [] || r.1[0] == '"'
  {
    if s == [] || s[0] == '"' then ([], s)
    else
      var (f, rest) := Field(s[1..]);
      ([s[0]] + f, rest)
  }

  /**
   * The fields of an annotation payload, each read up to the next double
   * quote. This reader knows no escapes: it is not a JSON parser, and a
   * field holding a backslash or a control character reads back here even
   * though the body is then not valid JSON.
   */
  function DecodeAnnotation(payload: string): Option<Annotation> {
    var a :- Consume(payload, TitleOpen);
    var (title, b) := Field(a);
    var c :- Consume(b, StartSep);
    var (start, d) := Field(c);
    if EndSep <= d then
      var e :- Consume(d, EndSep);
      var (end, f) := Field(e);
      var g :- Consume(f, TextSep);
      var (text, h) := Field(g);
      if h == Close then Some(Annotation(title, text, start, Some(end))) else None
    else
      var g :- Consume(d, TextSep);
      var (text, h) := Field(g);
      if h == Close then Some(Annotation(title, text, start, None)) else None
  }

  /** The fields of a token payload. */
  function DecodeToken(payload: string): Option<(string, string)> {
    var a :- Consume(payload, TokenOpen);
    var (apiToken, b) := Field(a);
    var c :- Consume(b, TenantSep);
    var (tenant, d) := Field(c);
    if d == Close then Some((apiToken, tenant)) else None
  }

  lemma Assoc(a: string, b: string, c: string)
    ensures a + b + c == a + (b + c)
  {
  }

  /** A left-nested concatenation of five pieces, regrouped to the right. */
  lemma Nest5(a: string, b: string, c: string, d: string, e: string)
    ensures a + b + c + d + e == a + (b + (c + (d + e)))
  {
    Assoc(a + b + c, d, e);
    Assoc(a + b, c, d + e);
    Assoc(a, b, c + (d + e));
  }

  lemma Nest7(a: string, b: string, c: string, d: string, e: string, f: string, g: string)
    ensures a + b + c + d + e + f + g == a + (b + (c + (d + (e + (f + g)))))
  {
    Assoc(a + b + c + d + e, f, g);
    Nest5(a, b, c, d, e + (f + g));
    Assoc(a + b + c + d, e, f + g);
  }

  lemma Nest9(a: string, b: string, c: string, d: string, e: string, f: string, g: string, h: string, i: string)
    ensures a + b + c + d + e + f + g + h + i == a + (b + (c + (d + (e + (f + (g + (h + i)))))))
  {
    Assoc(a + b + c + d + e + f + g, h, i);
    Assoc(a + b + c + d + e + f, g, h + i);
    Nest7(a, b, c, d, e, f, g + (h + i));
  }

  /** A field without quotes runs up to the quote that opens the next literal. */
  lemma {:induction false} FieldBeforeQuote(f: string, rest: string)
    requires '"' !in f && (rest == [] || rest[0] == '"')
    ensures Field(f + rest) == (f, rest)
  {
    if f == [] {
      assert f + rest == rest;
    } else {
      assert (f + rest)[1..] == f[1..] + rest;
      FieldBeforeQuote(f[1..], rest);
      assert [f[0]] + f[1..] == f;
    }
  }

  /** Reading one literal and the quote-free field after it. */
  lemma LiteralField(lit: string, f: string, rest: string)
    requires '"' !in f && (rest == [] || rest[0] == '"')
    ensures Consume(lit + (f + rest), lit) == Some(f + rest)
    ensures Field(f + rest) == (f, rest)
  {
    assert (lit + (f + rest))[..|lit|] == lit;
    assert (lit + (f + rest))[|lit|..] == f + rest;
    FieldBeforeQuote(f, rest);
  }

  predicate QuoteFree(s: string) {
    '"' !in s
  }

  /**
   * With no quote in any field, the annotation payload gives its fields back,
   * and it has an `end` member exactly when an end time was given.
   */
  lemma AnnotationRoundTrip(title: string, text: string, start: string, end: Option<string>)
    requires QuoteFree(title) && QuoteFree(text) && QuoteFree(start)
    requires end.Some? ==> QuoteFree(end.value)
    ensures DecodeAnnotation(AnnotationPayload(title, text, start, end)) == Some(Annotation(title, text, start, end))
  {
    if end.None? {
      RoundTripWithoutEnd(title, text, start);
    } else {
      RoundTripWithEnd(title, text, start, end.value);
    }
  }

  lemma RoundTripWithoutEnd(title: string, text: string, start: string)
    requires QuoteFree(title) && QuoteFree(text) && QuoteFree(start)
    ensures DecodeAnnotation(AnnotationPayload(title, text, start, None)) == Some(Annotation(title, text, start, None))
  {
    var tail := TextSep + (text + Close);
    Nest7(TitleOpen, title, StartSep, start, TextSep, text, Close);
    LiteralField(TitleOpen, title, StartSep + (start + tail));
    LiteralField(StartSep, start, tail);
    assert tail[4] == 't';
    assert !(EndSep <= tail);
    LiteralField(TextSep, text, Close);
  }

  lemma RoundTripWithEnd(title: string, text: string, start: string, end: string)
    requires QuoteFree(title) && QuoteFree(text) && QuoteFree(start) && QuoteFree(end)
    ensures DecodeAnnotation(AnnotationPayload(title, text, start, Some(end))) == Some(Annotation(title, text, start, Some(end)))
  {
    var tail := TextSep + (text + Close);
    Nest9(TitleOpen, title, StartSep, start, EndSep, end, TextSep, text, Close);
    LiteralField(TitleOpen, title, StartSep + (start + (EndSep + (end + tail))));
    LiteralField(StartSep, start, EndSep + (end + tail));
    LiteralField(EndSep, end, tail);
    LiteralField(TextSep, text, Close);
  }

  /** With no quote in either argument, the token payload gives both back. */
  lemma TokenRoundTrip(apiToken: string, tenant: string)
    requires QuoteFree(apiToken) && QuoteFree(tenant)
    ensures DecodeToken(TokenPayload(apiToken, tenant)) == Some((apiToken, tenant))
  {
    Nest5(TokenOpen, apiToken, TenantSep, tenant, Close);
    LiteralField(TokenOpen, apiToken, TenantSep + (tenant + Close));
    LiteralField(TenantSep, tenant, Close);
  }

  /** Nothing is escaped: a title holding a quote closes the string early and the payload no longer reads back. */
  lemma QuoteInTitleBreaksPayload()
    ensures DecodeAnnotation(AnnotationPayload("\"", "x", "1", None)) == None
  {
    var rest := StartSep + ("1" + (TextSep + ("x" + Close)));
    Nest7(TitleOpen, "\"", StartSep, "1", TextSep, "x", Close);
    assert "\"" + rest == [] + ("\"" + rest);
    LiteralField(TitleOpen, [], "\"" + rest);
    assert ("\"" + rest)[1] == '"';
    assert !(StartSep <= "\"" + rest);
  }

  // ----- getSecurityToken -----

  /** Decimal digits of a natural number, most significant first. */
  function NatDecimal(n: nat): (r: string)
    ensures r != []
    ensures forall k :: 0 <= k < |r| ==> '0' <= r[k] <= '9'
  {
    if n < 10 then [Digit(n)] else NatDecimal(n / 10) + [Digit(n % 10)]
  }

  function Digit(d: nat): (c: char)
    requires d < 10
    ensures '0' <= c <= '9'
  {
    ['0', '1', '2', '3', '4', '5', '6', '7', '8', '9'][d]
  }

  /** The number decimal digits stand for. */
  function DecimalValue(s: string): nat
    requires forall k :: 0 <= k < |s| ==> '0' <= s[k] <= '9'
  {
    if s == [] then 0 else DecimalValue(s[..|s| - 1]) * 10 + (s[|s| - 1] - '0') as nat
  }

  /** `str()` of a natural number reads back as that number. */
  lemma {:induction false} NatDecimalValue(n: nat)
    ensures DecimalValue(NatDecimal(n)) == n
  {
    if n >= 10 {
      NatDecimalValue(n / 10);
      var s := NatDecimal(n);
      assert s[..|s| - 1] == NatDecimal(n / 10);
    }
  }

  /** `str(v)` for the JSON scalars; containers are not modelled. */
  function PyStr(v: Json): Result<string, PyError> {
    match v
    case JStr(s) => Success(s)
    case JNull => Success("None")
    case JBool(b) => Success(if b then "True" else "False")
    case JNum(n) => Success(if n < 0 then "-" + NatDecimal(-n) else NatDecimal(n))
    case _ => Failure(NotModelled("str() of a list or a dict"))
  }

  /**
   * The branch of `getSecurityToken` on the answer to its request:
   * `str(json_data['token'])` on 200, and None on any other status.
   */
  function SecurityToken(result: Response): (r: Result<Option<string>, PyError>)
    ensures result.status != 200 ==> r == Success(None)
    ensures result.status == 200 ==> r != Success(None)
    ensures result.status == 200 && Member(result.body, "token").Failure? ==> r == Failure(Member(result.body, "token").error)
    ensures forall s :: result.status == 200 && Member(result.body, "token") == Success(JStr(s)) ==> r == Success(Some(s))
  {
    if result.status == 200 then
      var token :- Member(result.body, "token");
      var s :- PyStr(token);
      Success(Some(s))
    else Success(None)
  }

  /** `getSecurityToken(apiToken, tenant)`: the answer `put` gives to the token payload. */
  function GetSecurityToken(apiToken: string, tenant: string, put: string -> Response): (r: Result<Option<string>, PyError>)
    ensures put(TokenPayload(apiToken, tenant)).status != 200 ==> r == Success(None)
    ensures forall s :: put(TokenPayload(apiToken, tenant)) == Response(200, JObj([("token", JStr(s))])) ==> r == Success(Some(s))
  {
    SecurityToken(put(TokenPayload(apiToken, tenant)))
  }
}
