/** `RequestExecutor`: the process-wide secret key, the key guard, the
    `Accept` and `Authorization` headers, and the classification of what
    comes back from the transport.

    The HTTP transport is a function from the request sent to what came
    back, and the JSON parser is a function from body text to a document or
    an error message. Every failure is one error kind, `ApiError`, which
    carries only a message; `Cause` is the tagged reading of those messages. */
module RequestExecutor {
  import opened Wrappers
  import opened Strings
  import opened Json
  import opened RequestBuilder

  // ---------------------------------------------------------------------------
  // The stored key
  // ---------------------------------------------------------------------------

  /** The static `secretKey` field; `None` is its initial `null`. */
  datatype Executor = Executor(secretKey: Option<string>)

  const Unset: Executor := Executor(None)

  /** `setKey`: replace the stored key. */
  function SetKey(e: Executor, secretKey: Option<string>): (r: Executor)
    ensures r.secretKey == secretKey
  {
    Executor(secretKey)
  }

  /** The last `setKey` wins; earlier calls leave no trace. */
  lemma SetKeyLastWins(e: Executor, first: Option<string>, second: Option<string>)
    ensures SetKey(SetKey(e, first), second) == SetKey(e, second)
    ensures SetKey(SetKey(e, first), second) == SetKey(Unset, second)
  {
  }

  /** The guard of `executeRequest`: a key is usable unless it is null or
      `trim()` leaves nothing of it. */
  predicate ValidKey(secretKey: Option<string>) {
    secretKey.Some? && Trim(secretKey.value) != ""
  }

  /** A key is usable exactly when it holds a character above U+0020. */
  lemma ValidKeyIffNotBlank(secretKey: Option<string>)
    ensures ValidKey(secretKey) <==> secretKey.Some? && exists i :: 0 <= i < |secretKey.value| && !Trimmable(secretKey.value[i])
  {
    if secretKey.Some? {
      TrimEmptyIffBlank(secretKey.value);
    }
  }

  // ---------------------------------------------------------------------------
  // Header injection
  // ---------------------------------------------------------------------------

  const AcceptJson: Header := Header("Accept", "application/json")

  const BearerPrefix: string := "Bearer "

  /** The request as sent: the built request with `Accept: application/json`
      and `Authorization: Bearer <key>` appended, nothing else changed. */
  function Authorize(req: BuiltRequest, secretKey: string): (r: BuiltRequest)
    ensures |r.headers| == |req.headers| + 2
    ensures r.headers[..|req.headers|] == req.headers
    ensures r.headers[|req.headers|] == AcceptJson
    ensures r.headers[|req.headers| + 1].name == "Authorization"
    ensures StartsWith(r.headers[|req.headers| + 1].value, BearerPrefix)
    ensures r.headers[|req.headers| + 1].value[|BearerPrefix|..] == secretKey
    ensures r.(headers := req.headers) == req
  {
    var authorization := Header("Authorization", BearerPrefix + secretKey);
    assert (BearerPrefix + secretKey)[|BearerPrefix|..] == secretKey;
    req.(headers := req.headers + [AcceptJson, authorization])
  }

  // ---------------------------------------------------------------------------
  // Failure causes and their messages
  // ---------------------------------------------------------------------------

  /** `APIException`: a message and nothing else. */
  datatype ApiError = ApiError(message: string)

  /** What made a request fail, as the messages tell it apart. */
  datatype Cause =
    | MissingKey
    | HttpStatus(status: int, statusText: string)
    | EmptyBody
    | Malformed(detail: string)
    | Network(detail: string)

  const MissingKeyMessage: string := "API secret key cannot be null or empty"
  const StatusPrefix: string := "Request failed with status "
  const EmptyBodyMessage: string := "Received empty response body"
  const MalformedPrefix: string := "Failed to parse JSON response: "
  const NetworkPrefix: string := "Network or request error: "

  /** The message `executeRequest` puts in the exception for each cause. */
  function Message(cause: Cause): string {
    match cause
    case MissingKey => MissingKeyMessage
    case HttpStatus(status, text) => StatusPrefix + IntToString(status) + ": " + text
    case EmptyBody => EmptyBodyMessage
    case Malformed(detail) => MalformedPrefix + detail
    case Network(detail) => NetworkPrefix + detail
  }

  /** The index of the first `c` in `s`, or `|s|` when there is none. */
  function FirstIndexOf(s: string, c: char): (i: nat)
    ensures i <= |s|
    ensures forall j :: 0 <= j < i ==> s[j] != c
    ensures i < |s| ==> s[i] == c
  {
    if |s| == 0 then 0
    else if s[0] == c then 0
    else 1 + FirstIndexOf(s[1..], c)
  }

  /** `s` is what `IntToString` produces for some integer. */
  predicate IsIntText(s: string) {
    |s| > 0 && forall k :: 0 <= k < |s| ==> IsDigit(s[k]) || (k == 0 && s[k] == '-')
  }

  /** Reads the `<status>: <statusText>` tail of a status message. */
  function DecodeStatus(tail: string): Option<Cause> {
    var i := FirstIndexOf(tail, ':');
    if i + 1 < |tail| && tail[i + 1] == ' ' && IsIntText(tail[..i])
    then Some(HttpStatus(ParseInt(tail[..i]), tail[i + 2..]))
    else None
  }

  /** Reads a failure message back into its cause. */
  function DecodeMessage(message: string): Option<Cause> {
    if message == MissingKeyMessage then Some(MissingKey)
    else if message == EmptyBodyMessage then Some(EmptyBody)
    else if StartsWith(message, StatusPrefix) then DecodeStatus(message[|StatusPrefix|..])
    else if StartsWith(message, MalformedPrefix) then Some(Malformed(message[|MalformedPrefix|..]))
    else if StartsWith(message, NetworkPrefix) then Some(Network(message[|NetworkPrefix|..]))
    else None
  }

  /** The status part of a status message ends at its first colon. */
  lemma DecodeStatusTail(status: int, text: string)
    ensures DecodeStatus(IntToString(status) + ": " + text) == Some(HttpStatus(status, text))
  {
    var digits := IntToString(status);
    var tail := digits + ": " + text;
    var i := FirstIndexOf(tail, ':');
    assert tail[|digits|] == ':';
    assert forall j :: 0 <= j < |digits| ==> tail[j] == digits[j];
    assert i == |digits|;
    assert tail[..i] == digits;
    assert tail[i + 2..] == text;
    ParseIntToString(status);
  }

  /** A message made of `prefix` and a detail starts with `prefix`, and
      the detail follows it. */
  lemma PrefixedMessage(prefix: string, detail: string)
    ensures StartsWith(prefix + detail, prefix)
    ensures (prefix + detail)[|prefix|..] == detail
  {
    assert (prefix + detail)[..|prefix|] == prefix;
  }

  lemma StatusMessageRoundTrip(status: int, text: string)
    ensures DecodeMessage(Message(HttpStatus(status, text))) == Some(HttpStatus(status, text))
  {
    var tail := IntToString(status) + ": " + text;
    var m := Message(HttpStatus(status, text));
    assert m == StatusPrefix + tail;
    PrefixedMessage(StatusPrefix, tail);
    assert m[2] == 'q';
    DecodeStatusTail(status, text);
  }

  lemma MalformedMessageRoundTrip(detail: string)
    ensures DecodeMessage(Message(Malformed(detail))) == Some(Malformed(detail))
  {
    var m := Message(Malformed(detail));
    PrefixedMessage(MalformedPrefix, detail);
    assert m[0] == 'F';
    assert m != MissingKeyMessage && m != EmptyBodyMessage;
    assert m[..|StatusPrefix|][0] != StatusPrefix[0];
    assert !StartsWith(m, StatusPrefix);
    assert StartsWith(m, MalformedPrefix);
  }

  lemma NetworkMessageRoundTrip(detail: string)
    ensures DecodeMessage(Message(Network(detail))) == Some(Network(detail))
  {
    var m := Message(Network(detail));
    PrefixedMessage(NetworkPrefix, detail);
    assert m[0] == 'N';
    assert !StartsWith(m, MalformedPrefix);
  }

  /** Every message names its cause unambiguously: reading a message back
      gives the cause it was made from. */
  lemma MessageRoundTrip(cause: Cause)
    ensures DecodeMessage(Message(cause)) == Some(cause)
  {
    match cause
    case MissingKey =>
    case EmptyBody =>
    case HttpStatus(status, text) => StatusMessageRoundTrip(status, text);
    case Malformed(detail) => MalformedMessageRoundTrip(detail);
    case Network(detail) => NetworkMessageRoundTrip(detail);
  }

  /** Distinct causes give distinct messages. */
  lemma MessageInjective(c1: Cause, c2: Cause)
    requires Message(c1) == Message(c2)
    ensures c1 == c2
  {
    MessageRoundTrip(c1);
    MessageRoundTrip(c2);
  }

  // ---------------------------------------------------------------------------
  // Execution
  // ---------------------------------------------------------------------------

  /** What the HTTP client returns. */
  datatype Response = Response(status: int, statusText: string, body: Option<string>)

  /** The outcome of `asJson()`: a response, or a `UnirestException` with its
      message. */
  datatype Exchange = Delivered(response: Response) | TransportFailure(detail: string)

  /** The response checks of `executeRequest`, in their order: transport
      failure, status 400 or above, a null body, then parsing. */
  function Classify(exchange: Exchange, parse: string -> Result<Json, string>): (r: Result<Json, Cause>)
    ensures r.Failure? ==> r.error != MissingKey
    ensures exchange.TransportFailure? ==> r == Failure(Network(exchange.detail))
    ensures exchange.Delivered? && exchange.response.status >= 400 ==>
      r == Failure(HttpStatus(exchange.response.status, exchange.response.statusText))
    ensures exchange.Delivered? && exchange.response.status < 400 && exchange.response.body.None? ==>
      r == Failure(EmptyBody)
    ensures (exchange.Delivered? && exchange.response.status < 400 && exchange.response.body.Some?
             && parse(exchange.response.body.value).Failure?) ==>
      r == Failure(Malformed(parse(exchange.response.body.value).error))
    ensures r.Success? <==>
      exchange.Delivered? && exchange.response.status < 400 && exchange.response.body.Some?
      && parse(exchange.response.body.value).Success?
    ensures r.Success? ==> r.value == parse(exchange.response.body.value).value
  {
    match exchange
    case TransportFailure(detail) => Failure(Network(detail))
    case Delivered(response) =>
      if response.status >= 400 then Failure(HttpStatus(response.status, response.statusText))
      else if response.body.None? then Failure(EmptyBody)
      else
        match parse(response.body.value)
        case Success(doc) => Success(doc)
        case Failure(detail) => Failure(Malformed(detail))
  }

  /** The request that reached the transport, if any, and the result. */
  datatype Outcome = Outcome(sent: Option<BuiltRequest>, result: Result<Json, ApiError>)

  /** `executeRequest`: check the key, send the request with the two headers
      added, and classify what comes back. */
  function Execute(e: Executor, req: BuiltRequest, send: BuiltRequest -> Exchange,
                   parse: string -> Result<Json, string>): (o: Outcome)
    ensures o.sent.Some? <==> ValidKey(e.secretKey)
    ensures o.sent.Some? ==> o.sent.value == Authorize(req, e.secretKey.value)
    ensures !ValidKey(e.secretKey) ==> o.result == Failure(ApiError(MissingKeyMessage))
    ensures o.result.Success? ==> o.sent.Some? && Classify(send(o.sent.value), parse) == Success(o.result.value)
    ensures o.sent.Some? && o.result.Failure? ==>
      Classify(send(o.sent.value), parse).Failure?
      && o.result.error == ApiError(Message(Classify(send(o.sent.value), parse).error))
  {
    if !ValidKey(e.secretKey) then Outcome(None, Failure(ApiError(Message(MissingKey))))
    else
      var sent := Authorize(req, e.secretKey.value);
      match Classify(send(sent), parse)
      case Success(doc) => Outcome(Some(sent), Success(doc))
      case Failure(cause) => Outcome(Some(sent), Failure(ApiError(Message(cause))))
  }

  /** Whatever happens, a failure's message reads back as the cause that
      produced it: the missing key when the key is unusable, otherwise the
      classification of what the transport returned. */
  lemma ExecuteFailureNamesCause(e: Executor, req: BuiltRequest, send: BuiltRequest -> Exchange,
                                 parse: string -> Result<Json, string>)
    ensures var o := Execute(e, req, send, parse);
      o.result.Failure? ==>
        DecodeMessage(o.result.error.message) ==
          Some(if o.sent.None? then MissingKey else Classify(send(o.sent.value), parse).error)
  {
    var o := Execute(e, req, send, parse);
    if o.result.Failure? {
      if o.sent.None? {
        MessageRoundTrip(MissingKey);
      } else {
        MessageRoundTrip(Classify(send(o.sent.value), parse).error);
      }
    }
  }

  /** The status check comes before the body check: a failing status is
      reported with its code and text whatever the body, null included. */
  lemma StatusCheckedBeforeBody(response: Response, parse: string -> Result<Json, string>)
    requires response.status >= 400
    ensures Classify(Delivered(response), parse) == Failure(HttpStatus(response.status, response.statusText))
    ensures Message(HttpStatus(response.status, response.statusText))
         == "Request failed with status " + IntToString(response.status) + ": " + response.statusText
  {
  }

  /** The message of each failing check of `executeRequest`: the transport's
      error after "Network or request error: ", the status and its text,
      "Received empty response body" for a null body below status 400, and the
      parser's error after "Failed to parse JSON response: ". */
  lemma ClassifyMessages(exchange: Exchange, parse: string -> Result<Json, string>)
    ensures var r := Classify(exchange, parse);
      && (exchange.TransportFailure? ==>
            r.Failure? && Message(r.error) == "Network or request error: " + exchange.detail)
      && (exchange.Delivered? && exchange.response.status >= 400 ==>
            r.Failure? && Message(r.error) == "Request failed with status " + IntToString(exchange.response.status)
                                              + ": " + exchange.response.statusText)
      && (exchange.Delivered? && exchange.response.status < 400 && exchange.response.body.None? ==>
            r.Failure? && Message(r.error) == "Received empty response body")
      && ((exchange.Delivered? && exchange.response.status < 400 && exchange.response.body.Some?
           && parse(exchange.response.body.value).Failure?) ==>
            r.Failure? && Message(r.error) == "Failed to parse JSON response: " + parse(exchange.response.body.value).error)
  {
  }

  /** With a usable key, a failing check reaches the caller as an
      `APIException` carrying that check's message. */
  lemma ExecuteFailureMessages(e: Executor, req: BuiltRequest, send: BuiltRequest -> Exchange,
                               parse: string -> Result<Json, string>)
    requires ValidKey(e.secretKey)
    ensures var exchange := send(Authorize(req, e.secretKey.value));
      var result := Execute(e, req, send, parse).result;
      && (exchange.TransportFailure? ==>
            result == Failure(ApiError("Network or request error: " + exchange.detail)))
      && (exchange.Delivered? && exchange.response.status >= 400 ==>
            result == Failure(ApiError("Request failed with status " + IntToString(exchange.response.status)
                                       + ": " + exchange.response.statusText)))
      && (exchange.Delivered? && exchange.response.status < 400 && exchange.response.body.None? ==>
            result == Failure(ApiError("Received empty response body")))
      && ((exchange.Delivered? && exchange.response.status < 400 && exchange.response.body.Some?
           && parse(exchange.response.body.value).Failure?) ==>
            result == Failure(ApiError("Failed to parse JSON response: " + parse(exchange.response.body.value).error)))
  {
    var sent := Authorize(req, e.secretKey.value);
    assert Execute(e, req, send, parse).sent == Some(sent);
    ClassifyMessages(send(sent), parse);
  }

  /** A 404 answer is reported with "404" in its message. */
  lemma NotFoundMessage(text: string)
    ensures Message(HttpStatus(404, text)) == "Request failed with status 404: " + text
  {
    assert IntToString(404) == "404" by {
      assert NatToString(40) == "40" by {
        assert NatToString(4) == "4";
      }
    }
  }

  /** A successful answer returns the parsed document unchanged; any other
      answer fails, and the message says which check failed. */
  lemma SuccessExactlyWhenAllChecksPass(e: Executor, req: BuiltRequest, send: BuiltRequest -> Exchange,
                                        parse: string -> Result<Json, string>, doc: Json)
    requires ValidKey(e.secretKey)
    ensures var exchange := send(Authorize(req, e.secretKey.value));
      Execute(e, req, send, parse).result == Success(doc) <==>
        exchange.Delivered? && exchange.response.status < 400 && exchange.response.body.Some?
        && parse(exchange.response.body.value) == Success(doc)
  {
  }
}
